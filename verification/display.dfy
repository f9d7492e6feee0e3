/** The text a card shows for one participant, and the whitespace trimming applied to
    what the user types into a card's email input. */
module Display {

  /** A participant as it arrives in the activities JSON: a plain string, an object
      (its `email`, `address` and `name` fields, "" when absent, and its JSON text),
      or any other value (null, a number, a boolean) with its JSON text. */
  datatype Participant =
    | Plain(text: string)
    | Structured(email: string, address: string, name: string, json: string)
    | Scalar(json: string)

  /** The candidates the display text is drawn from, in the order they are tried. */
  function Fallbacks(p: Participant): (c: seq<string>)
    requires !p.Plain?
    ensures |c| >= 1 && c[|c| - 1] == p.json
  {
    match p
    case Structured(email, address, name, json) => [email, address, name, json]
    case Scalar(json) => [json]
  }

  /** The list-item text of a participant (app.js:56-59): a string shows as itself;
      otherwise the first non-empty field of the chain is shown, and the JSON text when
      every field is empty. */
  function DisplayText(p: Participant): (r: string)
    ensures p.Plain? ==> r == p.text
    ensures !p.Plain? ==>
      exists k {:trigger Fallbacks(p)[k]} :: 0 <= k < |Fallbacks(p)| && r == Fallbacks(p)[k]
        && (k < |Fallbacks(p)| - 1 ==> r != "")
        && forall j :: 0 <= j < k ==> Fallbacks(p)[j] == ""
  {
    match p
    case Plain(text) => text
    case Structured(email, address, name, json) =>
      if email != "" then
        assert Fallbacks(p)[0] == email;
        email
      else if address != "" then
        assert Fallbacks(p)[1] == address;
        address
      else if name != "" then
        assert Fallbacks(p)[2] == name;
        name
      else
        assert Fallbacks(p)[3] == json;
        json
    case Scalar(json) =>
      assert Fallbacks(p)[0] == json;
      json
  }

  /** The characters `String.prototype.trim` removes: ECMAScript WhiteSpace (tab, vertical
      tab, form feed, space, no-break space, byte order mark and the Unicode space
      separators) and LineTerminator (line feed, carriage return, line and paragraph
      separators). */
  predicate IsJsSpace(c: char) {
    || c == '\t' || c == '\U{000B}' || c == '\U{000C}' || c == ' '
    || c == '\U{00A0}' || c == '\U{FEFF}'
    || c == '\U{1680}' || ('\U{2000}' <= c <= '\U{200A}')
    || c == '\U{202F}' || c == '\U{205F}' || c == '\U{3000}'
    || c == '\n' || c == '\r' || c == '\U{2028}' || c == '\U{2029}'
  }

  /** Every character of `s` from position `lo` up to (not including) `hi` is whitespace. */
  predicate SpaceBetween(s: string, lo: int, hi: int)
    requires 0 <= lo <= hi <= |s|
  {
    forall i :: lo <= i < hi ==> IsJsSpace(s[i])
  }

  predicate AllSpace(s: string) {
    SpaceBetween(s, 0, |s|)
  }

  /** How many whitespace characters `s` starts with. */
  function LeadingSpaces(s: string): (k: nat)
    ensures k <= |s| && SpaceBetween(s, 0, k)
    ensures k == |s| || !IsJsSpace(s[k])
  {
    if |s| > 0 && IsJsSpace(s[0]) then
      var k := LeadingSpaces(s[1..]);
      assert forall i :: 1 <= i < k + 1 ==> s[i] == s[1..][i - 1];
      k + 1
    else 0
  }

  /** How many whitespace characters `s` ends with. */
  function TrailingSpaces(s: string): (k: nat)
    ensures k <= |s| && SpaceBetween(s, |s| - k, |s|)
    ensures k == |s| || !IsJsSpace(s[|s| - k - 1])
  {
    if |s| > 0 && IsJsSpace(s[|s| - 1]) then
      var k := TrailingSpaces(s[..|s| - 1]);
      assert forall i :: |s| - 1 - k <= i < |s| - 1 ==> s[i] == s[..|s| - 1][i];
      k + 1
    else 0
  }

  /** `String.prototype.trim`: whitespace removed from both ends. */
  function Trim(s: string): (r: string)
    ensures |r| <= |s|
    ensures r == [] || (!IsJsSpace(r[0]) && !IsJsSpace(r[|r| - 1]))
  {
    var rest := s[LeadingSpaces(s)..];
    rest[..|rest| - TrailingSpaces(rest)]
  }

  /** The trimmed text is a slice of the input with only whitespace around it. */
  lemma TrimIsSlice(s: string)
    ensures var r := Trim(s);
      exists i :: (0 <= i <= i + |r| <= |s| && r == s[i..i + |r|]
                   && SpaceBetween(s, 0, i) && SpaceBetween(s, i + |r|, |s|))
  {
    var i := LeadingSpaces(s);
    var rest := s[i..];
    var t := TrailingSpaces(rest);
    var r := Trim(s);
    assert r == s[i..i + |r|];
    assert forall j :: i + |r| <= j < |s| ==> s[j] == rest[j - i];
  }

  /** The trimmed input is empty exactly when everything typed was whitespace. */
  lemma TrimEmptyIffBlank(s: string)
    ensures Trim(s) == [] <==> AllSpace(s)
  {
  }

  /** Text without surrounding whitespace is left as it is. */
  lemma TrimKeepsTrimmed(s: string)
    requires s == [] || (!IsJsSpace(s[0]) && !IsJsSpace(s[|s| - 1]))
    ensures Trim(s) == s
  {
  }
}
