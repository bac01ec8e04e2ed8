/** The Some/None wrapper used wherever the bot's Python code returns `None`
    for "nothing here" (a failed lookup, an unparsable argument, no regex match). */
module Options {

  datatype Option<+T> = None | Some(value: T)
}
