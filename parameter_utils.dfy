/** `ParameterUtils.Combine`: renders string parameters as a JSON-object-like
    text `{"k1":v1, "k2":v2}` (compare section 4 of RFC 8259). Keys are quoted
    but not escaped; values are written raw. */
module ParameterUtils {
  import opened Common
  import opened Text

  /** One dictionary entry; a value may be null. */
  type Parameter = (string, Option<string>)

  /** `"key":value`, as the interpolation writes it. */
  function EntryText(p: Parameter): string
  {
    "\"" + p.0 + "\":" + Interpolate(p.1)
  }

  /** An entry's text is the quoted key, a colon, then the value: both can be cut back out. */
  lemma EntryTextParts(p: Parameter)
    ensures var t := EntryText(p);
      && |t| == |p.0| + 3 + |Interpolate(p.1)|
      && t[0] == '"' && t[1..|p.0| + 1] == p.0 && t[|p.0| + 1..|p.0| + 3] == "\":"
      && t[|p.0| + 3..] == Interpolate(p.1)
  {
  }

  function EntryTexts(ps: seq<Parameter>): (ts: seq<string>)
    ensures |ts| == |ps|
    ensures forall i :: 0 <= i < |ps| ==> ts[i] == EntryText(ps[i])
  {
    seq(|ps|, i requires 0 <= i < |ps| => EntryText(ps[i]))
  }

  /** The text of the parameters, in enumeration order: the reference for `Combine`. */
  function Rendered(ps: seq<Parameter>): string
  {
    "{" + Join(EntryTexts(ps), ", ") + "}"
  }

  /** The loop of the source: open a brace, write each entry, write ", " unless
      the entry's index is the last one, close the brace. */
  method Combine(parameters: seq<Parameter>) returns (s: string)
    ensures s == Rendered(parameters)
  {
    var texts := EntryTexts(parameters);
    var sb := "{";
    var index := 0;
    while index < |parameters|
      invariant 0 <= index <= |parameters|
      invariant sb == "{" + Join(texts[..index], ", ") + (if 0 < index < |parameters| then ", " else "")
    {
      JoinPrefixStep(texts, index, ", ");
      assert sb + texts[index] == "{" + Join(texts[..index + 1], ", ");
      sb := sb + texts[index];
      if index != |parameters| - 1 {
        sb := sb + ", ";
      }
      index := index + 1;
    }
    assert texts[..index] == texts;
    sb := sb + "}";
    s := sb;
  }

  /** No parameters give exactly `{}`. */
  lemma EmptyIsBraces()
    ensures Rendered([]) == "{}"
  {
  }

  /** The text is always braced. */
  lemma AlwaysBraced(ps: seq<Parameter>)
    ensures |Rendered(ps)| >= 2
    ensures Rendered(ps)[0] == '{' && Rendered(ps)[|Rendered(ps)| - 1] == '}'
  {
  }

  /** One parameter gives `{"key":value}`, with no separator. */
  lemma SingleEntry(p: Parameter)
    ensures Rendered([p]) == "{\"" + p.0 + "\":" + Interpolate(p.1) + "}"
  {
  }

  /** Entries keep their order: the text of two non-empty runs is the first
      run's entries, one separator, then the second run's entries. */
  lemma {:induction false} EntriesInOrder(ps: seq<Parameter>, qs: seq<Parameter>)
    requires |ps| > 0 && |qs| > 0
    ensures Rendered(ps + qs) == "{" + Join(EntryTexts(ps), ", ") + ", " + Join(EntryTexts(qs), ", ") + "}"
  {
    assert EntryTexts(ps + qs) == EntryTexts(ps) + EntryTexts(qs);
    JoinAppend(EntryTexts(ps), EntryTexts(qs), ", ");
  }

  /** n entries carry exactly n - 1 separators: the length is the two braces,
      the entries, and two characters per separator, none after the last entry. */
  lemma {:induction false} SeparatorCount(ps: seq<Parameter>)
    requires |ps| > 0
    ensures |Rendered(ps)| == 2 + TotalLength(EntryTexts(ps)) + 2 * (|ps| - 1)
  {
    JoinLength(EntryTexts(ps), ", ");
  }

  /** The last entry is followed by the closing brace, not by a separator. */
  lemma {:induction false} NoTrailingSeparator(ps: seq<Parameter>)
    requires |ps| > 1
    ensures Rendered(ps) == "{" + Join(EntryTexts(ps[..|ps| - 1]), ", ") + ", " + EntryText(ps[|ps| - 1]) + "}"
  {
    var ts := EntryTexts(ps);
    assert ts == EntryTexts(ps[..|ps| - 1]) + [EntryText(ps[|ps| - 1])];
    JoinSnoc(EntryTexts(ps[..|ps| - 1]), EntryText(ps[|ps| - 1]), ", ");
  }
}
