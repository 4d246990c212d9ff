/**
 * `BarcodeResult`: one decoded barcode as the host holds it, and its two
 * projections, the ten-entry dictionary `ToJson` and the one-line `ToString`.
 * The C# class has settable properties but neither projection writes to them,
 * so a result is a value here and both projections are functions of it.
 */
module Results {
  import opened Interop
  import opened Formatting

  /** The record; `None` stands for a C# null string. */
  datatype BarcodeResult = BarcodeResult(
    text: Option<string>,
    format: Option<string>,
    fullInfo: Option<string>,
    x1: int32, y1: int32,
    x2: int32, y2: int32,
    x3: int32, y3: int32,
    x4: int32, y4: int32)

  /** What `new BarcodeResult()` holds: null strings, zero coordinates. */
  function Default(): (r: BarcodeResult)
    ensures r.text.None? && r.format.None? && r.fullInfo.None?
    ensures r.x1 == r.y1 == r.x2 == r.y2 == r.x3 == r.y3 == r.x4 == r.y4 == 0
  {
    BarcodeResult(None, None, None, 0, 0, 0, 0, 0, 0, 0, 0)
  }

  /** `s ?? ""`, which is also what interpolating a null string yields. */
  function OrEmpty(s: Option<string>): string {
    match s
    case Some(v) => v
    case None => ""
  }

  /** The boxed values stored in the `Dictionary<string, object>` of `ToJson`. */
  datatype JsonField = FText(s: string) | FNumber(n: int32)

  /** The keys of `ToJson`, in the order they are added. */
  const JsonKeys: seq<string> := ["Text", "Format", "X1", "Y1", "X2", "Y2", "X3", "Y3", "X4", "Y4"]

  /** `Dictionary.Add`, which throws when the key is already present. */
  function Add(d: map<string, JsonField>, key: string, value: JsonField): map<string, JsonField>
    requires key !in d
  {
    d[key := value]
  }

  /** No key of `ToJson` is added twice. */
  lemma JsonKeysDistinct()
    ensures forall i, j :: 0 <= i < j < |JsonKeys| ==> JsonKeys[i] != JsonKeys[j]
  {
  }

  /**
   * `ToJson`: ten successive `Add`s onto an empty dictionary. Every `Add`'s
   * precondition holds, so the projection never throws, and the result holds
   * exactly the ten keys.
   */
  function ToJson(r: BarcodeResult): (d: map<string, JsonField>)
    ensures forall k :: k in d <==> k in JsonKeys
  {
    JsonKeysDistinct();
    var d0: map<string, JsonField> := map[];
    var d1 := Add(d0, JsonKeys[0], FText(OrEmpty(r.text)));
    var d2 := Add(d1, JsonKeys[1], FText(OrEmpty(r.format)));
    var d3 := Add(d2, JsonKeys[2], FNumber(r.x1));
    var d4 := Add(d3, JsonKeys[3], FNumber(r.y1));
    var d5 := Add(d4, JsonKeys[4], FNumber(r.x2));
    var d6 := Add(d5, JsonKeys[5], FNumber(r.y2));
    var d7 := Add(d6, JsonKeys[6], FNumber(r.x3));
    var d8 := Add(d7, JsonKeys[7], FNumber(r.y3));
    var d9 := Add(d8, JsonKeys[8], FNumber(r.x4));
    var d10 := Add(d9, JsonKeys[9], FNumber(r.y4));
    d10
  }

  /** The text and the format are projected with null replaced by "". */
  lemma ToJsonStrings(r: BarcodeResult)
    ensures ToJson(r)["Text"] == FText(OrEmpty(r.text))
    ensures ToJson(r)["Format"] == FText(OrEmpty(r.format))
    ensures r.text.Some? ==> ToJson(r)["Text"] == FText(r.text.value)
    ensures r.text.None? ==> ToJson(r)["Text"] == FText("")
  {
  }

  /** Each coordinate is projected unchanged, under its own name. */
  lemma ToJsonCoordinates(r: BarcodeResult)
    ensures ToJson(r)["X1"] == FNumber(r.x1) && ToJson(r)["Y1"] == FNumber(r.y1)
    ensures ToJson(r)["X2"] == FNumber(r.x2) && ToJson(r)["Y2"] == FNumber(r.y2)
    ensures ToJson(r)["X3"] == FNumber(r.x3) && ToJson(r)["Y3"] == FNumber(r.y3)
    ensures ToJson(r)["X4"] == FNumber(r.x4) && ToJson(r)["Y4"] == FNumber(r.y4)
  {
  }

  /** Reads a result back from a dictionary shaped like `ToJson`'s; the inverse of `ToJson`. */
  function FromJson(d: map<string, JsonField>): Option<BarcodeResult> {
    if forall k :: k in JsonKeys ==> k in d then
      match (d["Text"], d["Format"], d["X1"], d["Y1"], d["X2"], d["Y2"], d["X3"], d["Y3"], d["X4"], d["Y4"])
      case (FText(t), FText(f), FNumber(x1), FNumber(y1), FNumber(x2), FNumber(y2),
            FNumber(x3), FNumber(y3), FNumber(x4), FNumber(y4)) =>
        Some(BarcodeResult(Some(t), Some(f), None, x1, y1, x2, y2, x3, y3, x4, y4))
      case _ => None
    else None
  }

  /**
   * The dictionary keeps the text, the format and all eight coordinates: reading
   * it back gives the result with null strings turned into "" and `FullInfo` dropped.
   */
  lemma ToJsonRoundTrip(r: BarcodeResult)
    ensures FromJson(ToJson(r))
         == Some(r.(text := Some(OrEmpty(r.text)), format := Some(OrEmpty(r.format)), fullInfo := None))
  {
    ToJsonStrings(r);
    ToJsonCoordinates(r);
  }

  /**
   * `ToString`: the interpolation `$"Text: {Text}, Format: {Format}, X1: {X1}, ..., Y4: {Y4}"`.
   * It is the ten fields in the fixed order Text, Format, X1, Y1, ..., Y4, each
   * rendered `"Name: value"`, joined by ", ".
   */
  function ToString(r: BarcodeResult): (s: string)
    ensures s == Join(", ", [
      Entry("Text", OrEmpty(r.text)), Entry("Format", OrEmpty(r.format)),
      Entry("X1", Decimal(r.x1 as int)), Entry("Y1", Decimal(r.y1 as int)),
      Entry("X2", Decimal(r.x2 as int)), Entry("Y2", Decimal(r.y2 as int)),
      Entry("X3", Decimal(r.x3 as int)), Entry("Y3", Decimal(r.y3 as int)),
      Entry("X4", Decimal(r.x4 as int)), Entry("Y4", Decimal(r.y4 as int))])
  {
    InterpolationIsJoin(OrEmpty(r.text), OrEmpty(r.format),
      Decimal(r.x1 as int), Decimal(r.y1 as int), Decimal(r.x2 as int), Decimal(r.y2 as int),
      Decimal(r.x3 as int), Decimal(r.y3 as int), Decimal(r.x4 as int), Decimal(r.y4 as int));
    "Text: " + OrEmpty(r.text) + ", Format: " + OrEmpty(r.format)
    + ", X1: " + Decimal(r.x1 as int) + ", Y1: " + Decimal(r.y1 as int)
    + ", X2: " + Decimal(r.x2 as int) + ", Y2: " + Decimal(r.y2 as int)
    + ", X3: " + Decimal(r.x3 as int) + ", Y3: " + Decimal(r.y3 as int)
    + ", X4: " + Decimal(r.x4 as int) + ", Y4: " + Decimal(r.y4 as int)
  }

  /** One rendered field, `"Name: value"`. */
  function Entry(name: string, value: string): string {
    name + ": " + value
  }

  /** The interpolation pattern of `ToString`, for any rendered field values. */
  lemma InterpolationIsJoin(t: string, f: string, a: string, b: string, c: string, d: string,
                            e: string, g: string, h: string, k: string)
    ensures "Text: " + t + ", Format: " + f + ", X1: " + a + ", Y1: " + b + ", X2: " + c
          + ", Y2: " + d + ", X3: " + e + ", Y3: " + g + ", X4: " + h + ", Y4: " + k
         == Join(", ", [Entry("Text", t), Entry("Format", f), Entry("X1", a), Entry("Y1", b),
              Entry("X2", c), Entry("Y2", d), Entry("X3", e), Entry("Y3", g),
              Entry("X4", h), Entry("Y4", k)])
  {
    var p0, l0 := "Text: " + t, [Entry("Text", t)];
    var p2, l2 := p0 + ", Format: " + f + ", X1: " + a, l0 + [Entry("Format", f), Entry("X1", a)];
    assert p2 == Join(", ", l2) by { TwoEntries(p0, l0, ", Format: ", "Format", f, ", X1: ", "X1", a); }
    var p4, l4 := p2 + ", Y1: " + b + ", X2: " + c, l2 + [Entry("Y1", b), Entry("X2", c)];
    assert p4 == Join(", ", l4) by { TwoEntries(p2, l2, ", Y1: ", "Y1", b, ", X2: ", "X2", c); }
    var p6, l6 := p4 + ", Y2: " + d + ", X3: " + e, l4 + [Entry("Y2", d), Entry("X3", e)];
    assert p6 == Join(", ", l6) by { TwoEntries(p4, l4, ", Y2: ", "Y2", d, ", X3: ", "X3", e); }
    var p8, l8 := p6 + ", Y3: " + g + ", X4: " + h, l6 + [Entry("Y3", g), Entry("X4", h)];
    assert p8 == Join(", ", l8) by { TwoEntries(p6, l6, ", Y3: ", "Y3", g, ", X4: ", "X4", h); }
    var p9, l9 := p8 + ", Y4: " + k, l8 + [Entry("Y4", k)];
    assert p9 == Join(", ", l9) by { AppendEntry(p8, l8, ", Y4: ", "Y4", k); }
    assert l9 == [Entry("Text", t), Entry("Format", f), Entry("X1", a), Entry("Y1", b),
      Entry("X2", c), Entry("Y2", d), Entry("X3", e), Entry("Y3", g), Entry("X4", h), Entry("Y4", k)];
  }

  /** Rendering one more field after a rendered prefix extends the joined list by one entry. */
  lemma AppendEntry(prefix: string, entries: seq<string>, caption: string, name: string, value: string)
    requires |entries| >= 1 && prefix == Join(", ", entries)
    requires caption == ", " + name + ": "
    ensures prefix + caption + value == Join(", ", entries + [Entry(name, value)])
  {
    JoinSnoc(", ", entries, Entry(name, value));
  }

  /** Two more fields, as `AppendEntry` twice. */
  lemma TwoEntries(prefix: string, entries: seq<string>,
                   caption1: string, name1: string, value1: string,
                   caption2: string, name2: string, value2: string)
    requires |entries| >= 1 && prefix == Join(", ", entries)
    requires caption1 == ", " + name1 + ": " && caption2 == ", " + name2 + ": "
    ensures prefix + caption1 + value1 + caption2 + value2
         == Join(", ", entries + [Entry(name1, value1), Entry(name2, value2)])
  {
    AppendEntry(prefix, entries, caption1, name1, value1);
    AppendEntry(prefix + caption1 + value1, entries + [Entry(name1, value1)], caption2, name2, value2);
    assert entries + [Entry(name1, value1)] + [Entry(name2, value2)]
        == entries + [Entry(name1, value1), Entry(name2, value2)];
  }

  /** `FullInfo` shows in neither projection. */
  lemma FullInfoNotProjected(r: BarcodeResult, info: Option<string>)
    ensures ToJson(r.(fullInfo := info)) == ToJson(r)
    ensures ToString(r.(fullInfo := info)) == ToString(r)
  {
  }

  /** A default-constructed result projects to empty text and format and zero coordinates. */
  lemma DefaultToJson()
    ensures ToJson(Default())["Text"] == ToJson(Default())["Format"] == FText("")
    ensures var d := ToJson(Default());
      d["X1"] == d["Y1"] == d["X2"] == d["Y2"] == d["X3"] == d["Y3"] == d["X4"] == d["Y4"] == FNumber(0)
  {
    ToJsonStrings(Default());
    ToJsonCoordinates(Default());
  }

  /** A default-constructed result renders empty text and format and zero coordinates. */
  lemma DefaultToString()
    ensures ToString(Default()) == Join(", ", [Entry("Text", ""), Entry("Format", ""),
      Entry("X1", "0"), Entry("Y1", "0"), Entry("X2", "0"), Entry("Y2", "0"),
      Entry("X3", "0"), Entry("Y3", "0"), Entry("X4", "0"), Entry("Y4", "0")])
  {
    assert Decimal(0) == "0";
  }
}
