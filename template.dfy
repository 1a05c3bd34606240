/**
 * The file-name template of the exporter, rendered against the start document
 * as `str.format(**doc)` does: `{name}` is replaced by `str(doc[name])`, and
 * `{{` and `}}` stand for literal braces.
 */
module Template {
  import opened Documents

  /** The default template: the run's uid followed by a dash. */
  const DefaultFilePrefix: string := "{uid}-"

  /** The first index at or after `from` holding c, or |s| when there is none. */
  function IndexFrom(s: string, c: char, from: nat): (j: nat)
    requires from <= |s|
    ensures from <= j <= |s|
    ensures j < |s| ==> s[j] == c
    ensures forall k :: from <= k < j ==> s[k] != c
    decreases |s| - from
  {
    if from == |s| || s[from] == c then from else IndexFrom(s, c, from + 1)
  }

  predicate AllDigits(s: string) { forall i :: 0 <= i < |s| ==> IsDigit(s[i]) }

  /** A field name the model renders: no format spec, conversion, attribute or index part. */
  predicate PlainName(name: string)
  {
    forall i :: 0 <= i < |name| ==> name[i] !in ":!.[{"
  }

  /**
   * The text substituted for the replacement field `{name}`: a positional field
   * (empty or numeric name) has no argument to take (IndexError); a missing
   * keyword is a KeyError.
   */
  function Field(name: string, doc: Doc): (r: Result<string>)
    ensures PlainName(name) && name != [] && !AllDigits(name) && name !in doc ==> r == Err(KeyError(VStr(name)))
    ensures PlainName(name) && name != [] && !AllDigits(name) && name in doc ==> r == Render(doc[name])
  {
    if name == [] || AllDigits(name) then Err(IndexError)
    else if !PlainName(name) then Err(FormatUnsupported)
    else if name !in doc then Err(KeyError(VStr(name)))
    else Render(doc[name])
  }

  function Prepend(p: string, r: Result<string>): (r': Result<string>)
    ensures r.Err? ==> r' == r
    ensures r.Ok? ==> r' == Ok(p + r.value)
  {
    match r
    case Ok(s) => Ok(p + s)
    case Err(e) => Err(e)
  }

  /** `t.format(**doc)`, left to right: the first failing part decides the error. */
  function Format(t: string, doc: Doc): Result<string>
    decreases |t|
  {
    if t == [] then Ok([])
    else if t[0] == '{' && |t| > 1 && t[1] == '{' then Prepend("{", Format(t[2..], doc))
    else if t[0] == '}' && |t| > 1 && t[1] == '}' then Prepend("}", Format(t[2..], doc))
    else if t[0] == '}' then Err(ValueError("Single '}' encountered in format string"))
    else if t[0] == '{' && |t| == 1 then Err(ValueError("Single '{' encountered in format string"))
    else if t[0] == '{' then
      var j := IndexFrom(t, '}', 1);
      if j == |t| then Err(ValueError("expected '}' before end of string"))
      else
        var v :- Field(t[1..j], doc);
        Prepend(v, Format(t[j + 1..], doc))
    else Prepend([t[0]], Format(t[1..], doc))
  }

  /** The names of the replacement fields of t, in order. */
  function FieldNames(t: string): seq<string>
    decreases |t|
  {
    if t == [] then []
    else if (t[0] == '{' || t[0] == '}') && |t| > 1 && t[1] == t[0] then FieldNames(t[2..])
    else if t[0] == '{' then
      var j := IndexFrom(t, '}', 1);
      if j == |t| then [] else [t[1..j]] + FieldNames(t[j + 1..])
    else FieldNames(t[1..])
  }

  /** A `{` that ends the template, after any text, is a lone brace. */
  lemma {:induction false} FormatTrailingBrace(t: string, doc: Doc)
    requires '{' !in t && '}' !in t
    ensures Format(t + "{", doc) == Err(ValueError("Single '{' encountered in format string"))
  {
    if t != [] {
      assert (t + "{")[1..] == t[1..] + "{";
      FormatTrailingBrace(t[1..], doc);
    }
  }

  /** A template without braces renders as itself, whatever the document. */
  lemma {:induction false} FormatLiteral(t: string, doc: Doc)
    requires '{' !in t && '}' !in t
    ensures Format(t, doc) == Ok(t)
  {
    if t != [] {
      FormatLiteral(t[1..], doc);
      assert [t[0]] + t[1..] == t;
    }
  }

  /** A template that renders references only fields the document has. */
  lemma {:induction false} FormatNeedsFields(t: string, doc: Doc)
    requires Format(t, doc).Ok?
    ensures forall i :: 0 <= i < |FieldNames(t)| ==> FieldNames(t)[i] in doc
  {
    if t == [] {
    } else if (t[0] == '{' || t[0] == '}') && |t| > 1 && t[1] == t[0] {
      FormatNeedsFields(t[2..], doc);
    } else if t[0] == '{' {
      var j := IndexFrom(t, '}', 1);
      FormatNeedsFields(t[j + 1..], doc);
      assert FieldNames(t) == [t[1..j]] + FieldNames(t[j + 1..]);
    } else {
      FormatNeedsFields(t[1..], doc);
    }
  }

  /**
   * The default template gives `<uid>-` for a string uid and raises KeyError
   * when the start document has no uid.
   */
  lemma DefaultPrefixRendersUid(doc: Doc)
    ensures "uid" !in doc ==> Format(DefaultFilePrefix, doc) == Err(KeyError(VStr("uid")))
    ensures "uid" in doc && doc["uid"].VStr? ==> Format(DefaultFilePrefix, doc) == Ok(doc["uid"].s + "-")
  {
    var t := DefaultFilePrefix;
    assert IndexFrom(t, '}', 1) == 4 by {
      assert t[1] != '}' && t[2] != '}' && t[3] != '}' && t[4] == '}';
    }
    assert t[1..4] == "uid";
    assert t[5..] == "-";
    assert AllDigits("uid") == false by { assert !IsDigit("uid"[0]); }
    assert PlainName("uid");
    FormatLiteral("-", doc);
  }
}
