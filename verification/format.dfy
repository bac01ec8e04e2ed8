/** Field selection of `format_results` (bot.py:49-78). The rendered text
    (labels, emoji, Markdown, separators) is not modelled: each record becomes
    a `Block` holding the eight selected values and its 1-based number. */
module Format {
  import opened Options
  import opened Json
  import PyText

  /** The placeholder every fallback chain ends with. */
  const NA: Json := JStr("N/A")

  /** The regular-expression search on the address (bot.py:62), left
      uninterpreted: the captured second group when the pattern matches. */
  type Guardian = string -> Option<string>

  datatype Block = Block(
    index: nat,
    name: Json,
    father: Json,
    address: Json,
    mobile: Json,
    alt: Json,
    circle: Json,
    idNumber: Json,
    email: Json)

  /** Python's `a or b or ... or "N/A"`: the first truthy candidate, else "N/A". */
  function Pick(candidates: seq<Json>): (r: Json)
    ensures (forall i :: 0 <= i < |candidates| ==> !Truthy(candidates[i])) ==> r == NA
    ensures forall i :: (0 <= i < |candidates| && Truthy(candidates[i])
      && (forall j :: 0 <= j < i ==> !Truthy(candidates[j]))) ==> r == candidates[i]
  {
    if |candidates| == 0 then NA
    else if Truthy(candidates[0]) then candidates[0]
    else Pick(candidates[1..])
  }

  /** The father chain before any derivation: `fname`, then `father_name`. */
  function FatherField(m: map<string, Json>): Json {
    Pick([Get(m, "fname"), Get(m, "father_name")])
  }

  function AddressField(m: map<string, Json>): Json {
    Pick([Get(m, "address")])
  }

  /** The guardian is searched for in the address only in this case. */
  predicate DerivationAttempted(m: map<string, Json>) {
    FatherField(m) == NA && AddressField(m) != NA
  }

  /** Formatting a record raises in Python when the record is not a dict
      (`info.get`) or when the address searched is not a string (`re.search`). */
  predicate Formattable(record: Json) {
    record.JObj? && (DerivationAttempted(record.fields) ==> AddressField(record.fields).JStr?)
  }

  /** The father value shown: the chain's result, replaced by the stripped
      capture when the derivation runs and the search matches; None when the
      search raises because the address is not a string. */
  function Father(m: map<string, Json>, guardian: Guardian): (r: Option<Json>)
    ensures r.None? <==> DerivationAttempted(m) && !AddressField(m).JStr?
    ensures !DerivationAttempted(m) ==> r == Some(FatherField(m))
    ensures DerivationAttempted(m) && AddressField(m).JStr? ==>
      r == Some(match guardian(AddressField(m).s)
                case Some(g) => JStr(PyText.Strip(g))
                case None => NA)
  {
    var father := FatherField(m);
    var address := AddressField(m);
    if father == NA && address != NA then
      if address.JStr? then
        match guardian(address.s)
        case Some(g) => Some(JStr(PyText.Strip(g)))
        case None => Some(father)
      else None
    else Some(father)
  }

  /** One record as one block; None when formatting it raises. */
  function FormatRecord(record: Json, index: nat, guardian: Guardian): (r: Option<Block>)
    ensures r.Some? <==> Formattable(record)
    ensures r.Some? ==> r.value.index == index
  {
    if !record.JObj? then None
    else
      var m := record.fields;
      var father := Father(m, guardian);
      if father.None? then None
      else
        Some(Block(index,
          Pick([Get(m, "name")]),
          father.value,
          AddressField(m),
          Pick([Get(m, "mobile")]),
          Pick([Get(m, "alt"), Get(m, "alt_mobile")]),
          Pick([Get(m, "circle")]),
          Pick([Get(m, "id_number")]),
          Pick([Get(m, "email")])))
  }

  /** Applies a record formatter to `xs[k..]`, numbering from `k + 1`;
      None as soon as one application fails. */
  function TraverseFrom<A, B>(xs: seq<A>, f: (A, nat) -> Option<B>, k: nat): (r: Option<seq<B>>)
    requires k <= |xs|
    ensures r.Some? <==> forall i :: k <= i < |xs| ==> f(xs[i], i + 1).Some?
    ensures r.Some? ==> |r.value| == |xs| - k
    ensures r.Some? ==> forall i :: k <= i < |xs| ==> f(xs[i], i + 1) == Some(r.value[i - k])
    decreases |xs| - k
  {
    if k == |xs| then Some([])
    else
      var head := f(xs[k], k + 1);
      var tail := TraverseFrom(xs, f, k + 1);
      if head.None? || tail.None? then None
      else Some([head.value] + tail.value)
  }

  /** `format_results`: one block per record, in order, numbered from 1. */
  function FormatResults(records: seq<Json>, guardian: Guardian): (r: Option<seq<Block>>)
    ensures r.Some? <==> forall i :: 0 <= i < |records| ==> Formattable(records[i])
    ensures r.Some? ==> |r.value| == |records|
    ensures r.Some? ==> forall i :: 0 <= i < |records| ==>
      r.value[i].index == i + 1 && FormatRecord(records[i], i + 1, guardian) == Some(r.value[i])
  {
    var r := TraverseFrom(records, (rec, n) => FormatRecord(rec, n, guardian), 0);
    assert r.Some? ==> forall i :: 0 <= i < |records| ==> r.value[i].index == i + 1 by {
      if r.Some? {
        forall i | 0 <= i < |records| ensures r.value[i].index == i + 1 {
          assert FormatRecord(records[i], i + 1, guardian) == Some(r.value[i]);
        }
      }
    }
    r
  }

  /** Every field of a formatted block is the result of its fallback chain:
      name, address, mobile, circle, ID number and email read one key each,
      the alternate number reads `alt` then `alt_mobile`, and the father is
      the chain `fname`, `father_name` possibly replaced by the derivation. */
  lemma FieldSelection(record: Json, index: nat, guardian: Guardian)
    requires Formattable(record)
    ensures var m := record.fields;
      var b := FormatRecord(record, index, guardian).value;
      && b.name == Pick([Get(m, "name")])
      && b.father == Father(m, guardian).value
      && b.address == AddressField(m)
      && b.mobile == Pick([Get(m, "mobile")])
      && b.alt == Pick([Get(m, "alt"), Get(m, "alt_mobile")])
      && b.circle == Pick([Get(m, "circle")])
      && b.idNumber == Pick([Get(m, "id_number")])
      && b.email == Pick([Get(m, "email")])
  {
  }

  /** A record that names its father directly is never searched, and keeps that name. */
  lemma DirectFatherWins(m: map<string, Json>, index: nat, guardian: Guardian)
    requires FatherField(m) != NA
    ensures FormatRecord(JObj(m), index, guardian).Some?
    ensures FormatRecord(JObj(m), index, guardian).value.father
         == (if Truthy(Get(m, "fname")) then Get(m, "fname") else Get(m, "father_name"))
  {
  }

  /** A father given literally as "N/A" counts as unresolved: the address is still searched. */
  lemma LiteralNAIsSearched(address: string, g: string, guardian: Guardian)
    requires address != "N/A" && |address| > 0
    requires guardian(address) == Some(g)
    ensures var m := map["fname" := NA, "address" := JStr(address)];
      Father(m, guardian) == Some(JStr(PyText.Strip(g)))
  {
    var m := map["fname" := NA, "address" := JStr(address)];
    assert Get(m, "fname") == NA && Get(m, "father_name") == JNull;
    assert [Get(m, "fname"), Get(m, "father_name")][0] == NA;
    assert Get(m, "address") == JStr(address);
  }

  /** An empty string is as good as a missing key: `fname: ""` falls through to `father_name`. */
  lemma EmptyStringFallsThrough(father: string)
    requires |father| > 0
    ensures FatherField(map["fname" := JStr(""), "father_name" := JStr(father)]) == JStr(father)
  {
    var m := map["fname" := JStr(""), "father_name" := JStr(father)];
    assert Get(m, "fname") == JStr("") && Get(m, "father_name") == JStr(father);
    var c := [Get(m, "fname"), Get(m, "father_name")];
    assert !Truthy(c[0]) && Truthy(c[1]);
  }

  /** The worked example: a record with only a name, an `S/O ...` address and a
      mobile number, where the search captures "John Doe". */
  lemma GuardianFromAddressExample(guardian: Guardian)
    requires guardian("S/O John Doe, Main St") == Some("John Doe")
    ensures var rec := JObj(map[
        "name" := JStr("A"),
        "address" := JStr("S/O John Doe, Main St"),
        "mobile" := JStr("123")]);
      FormatRecord(rec, 1, guardian) == Some(Block(1,
        JStr("A"), JStr("John Doe"), JStr("S/O John Doe, Main St"), JStr("123"),
        NA, NA, NA, NA))
  {
    var m := map[
        "name" := JStr("A"),
        "address" := JStr("S/O John Doe, Main St"),
        "mobile" := JStr("123")];
    assert "fname" !in m && "father_name" !in m && "alt" !in m && "alt_mobile" !in m;
    assert "circle" !in m && "id_number" !in m && "email" !in m;
    assert DerivationAttempted(m);
    var g := "John Doe";
    assert PyText.Trimmed(g);
    PyText.StripTrimmed(g);
  }
}
