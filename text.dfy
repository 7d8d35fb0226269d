/**
 * JavaScript string operations the page and the server actions rely on: `trim()`, the
 * control-character `replace` used before `JSON.parse`, and `Array.join`.
 * Strings are sequences of Unicode scalar values.
 */
module Text {

  /** The characters `String.prototype.trim` removes: WhiteSpace and LineTerminator of ECMAScript. */
  predicate IsJsWhitespace(c: char) {
    c == '\t' || c == '\n' || c == '\U{B}' || c == '\U{C}' || c == '\r' || c == ' '
    || c == '\U{A0}' || c == '\U{1680}' || ('\U{2000}' <= c <= '\U{200A}')
    || c == '\U{2028}' || c == '\U{2029}' || c == '\U{202F}' || c == '\U{205F}'
    || c == '\U{3000}' || c == '\U{FEFF}'
  }

  /** The class `[\u0000-\u001F\u007F-\u009F]` matched by the cleaning regular expression. */
  predicate IsControl(c: char) {
    c as int <= 0x1F || (0x7F <= c as int <= 0x9F)
  }

  function TrimStart(s: string): (r: string)
    ensures |r| <= |s| && r == s[|s| - |r|..]
    ensures r != [] ==> !IsJsWhitespace(r[0])
    ensures forall i :: 0 <= i < |s| - |r| ==> IsJsWhitespace(s[i])
  {
    if s != [] && IsJsWhitespace(s[0]) then TrimStart(s[1..]) else s
  }

  function TrimEnd(s: string): (r: string)
    ensures |r| <= |s| && r == s[..|r|]
    ensures r != [] ==> !IsJsWhitespace(r[|r| - 1])
    ensures forall i :: |r| <= i < |s| ==> IsJsWhitespace(s[i])
  {
    if s != [] && IsJsWhitespace(s[|s| - 1]) then TrimEnd(s[..|s| - 1]) else s
  }

  /** `s.trim()`: the longest infix of `s` that neither starts nor ends with white space. */
  function Trim(s: string): (r: string)
    ensures r != [] ==> !IsJsWhitespace(r[0]) && !IsJsWhitespace(r[|r| - 1])
    ensures TrimOffset(s) + |r| <= |s| && r == s[TrimOffset(s)..TrimOffset(s) + |r|]
    ensures forall i :: 0 <= i < TrimOffset(s) ==> IsJsWhitespace(s[i])
    ensures forall i :: TrimOffset(s) + |r| <= i < |s| ==> IsJsWhitespace(s[i])
  {
    var t := TrimStart(s);
    var r := TrimEnd(t);
    assert r == s[|s| - |t|..|s| - |t| + |r|];
    assert forall i :: |s| - |t| + |r| <= i < |s| ==> s[i] == t[i - (|s| - |t|)];
    r
  }

  /** Where the trimmed text starts in the input. */
  function TrimOffset(s: string): (k: nat)
    ensures k <= |s|
  {
    |s| - |TrimStart(s)|
  }

  /** Nothing but white space, one character at a time. */
  predicate Blank(s: string) {
    s == [] || (IsJsWhitespace(s[0]) && Blank(s[1..]))
  }

  /** `Blank` holds exactly when every character is white space. */
  lemma {:induction false} BlankAll(s: string)
    ensures Blank(s) <==> forall i :: 0 <= i < |s| ==> IsJsWhitespace(s[i])
  {
    if s != [] {
      BlankAll(s[1..]);
      assert forall i :: 1 <= i < |s| ==> s[1..][i - 1] == s[i];
    }
  }

  /** `Blank` holds exactly when trimming leaves nothing. */
  lemma BlankIff(s: string)
    ensures Blank(s) <==> Trim(s) == []
  {
    BlankAll(s);
    TrimEmptyIff(s);
  }

  /** The trimmed text is empty exactly when the input is white space only. */
  lemma {:induction false} TrimEmptyIff(s: string)
    ensures Trim(s) == [] <==> forall i :: 0 <= i < |s| ==> IsJsWhitespace(s[i])
  {
    var t := TrimStart(s);
    if Trim(s) == [] {
      assert TrimEnd(t) == [];
      assert t == [];
    } else {
      assert s[TrimOffset(s)] == Trim(s)[0];
    }
  }

  /** Trimming twice is trimming once. */
  lemma TrimIdempotent(s: string)
    ensures Trim(Trim(s)) == Trim(s)
  {
    var r := Trim(s);
    if r != [] {
      assert TrimStart(r) == r;
      assert TrimEnd(r) == r;
    }
  }

  /**
   * `s.replace(/[\u0000-\u001F\u007F-\u009F]/g, '')`: a single character is
   * dropped exactly when it is a control character; `RemoveControlsAppend`
   * extends this to whole texts, in order.
   */
  function RemoveControls(s: string): (r: string)
    ensures |r| <= |s|
    ensures |s| == 1 ==> r == (if IsControl(s[0]) then [] else s)
    ensures forall i :: 0 <= i < |r| ==> !IsControl(r[i])
    ensures (forall i :: 0 <= i < |s| ==> !IsControl(s[i])) ==> r == s
  {
    if s == [] then []
    else if IsControl(s[|s| - 1]) then RemoveControls(s[..|s| - 1])
    else RemoveControls(s[..|s| - 1]) + [s[|s| - 1]]
  }

  /** Removing control characters works piecewise: the kept characters stay in their order. */
  lemma {:induction false} RemoveControlsAppend(a: string, b: string)
    ensures RemoveControls(a + b) == RemoveControls(a) + RemoveControls(b)
  {
    if b == [] {
      assert a + b == a;
    } else {
      var init, c := b[..|b| - 1], b[|b| - 1];
      RemoveControlsAppend(a, init);
      var ab := a + b;
      assert ab[..|ab| - 1] == a + init && ab[|ab| - 1] == c;
      if IsControl(c) {
        assert RemoveControls(ab) == RemoveControls(a + init);
        assert RemoveControls(b) == RemoveControls(init);
      } else {
        assert RemoveControls(ab) == RemoveControls(a + init) + [c];
        assert RemoveControls(b) == RemoveControls(init) + [c];
        assert RemoveControls(a) + RemoveControls(init) + [c] == RemoveControls(a) + (RemoveControls(init) + [c]);
      }
    }
  }

  /** `parts.join(sep)`. */
  function Join(parts: seq<string>, sep: string): string
  {
    if parts == [] then ""
    else if |parts| == 1 then parts[0]
    else Join(parts[..|parts| - 1], sep) + sep + parts[|parts| - 1]
  }

  /** Joining appends one separator and one part per extra element, in order. */
  lemma JoinSnoc(parts: seq<string>, sep: string, p: string)
    requires parts != []
    ensures Join(parts + [p], sep) == Join(parts, sep) + sep + p
  {
    assert (parts + [p])[..|parts|] == parts;
  }
}
