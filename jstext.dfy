/** Properties of the untyped JSON order records, and the JavaScript string
    operations the dashboard applies to them (`?.trim()`, `toLowerCase`,
    `toUpperCase`, truthiness, and the conversion of a value to an object key). */
module JsText {

  /** A property of a JSON record: absent (`undefined` or `null`) or a string.
      Numbers that the dashboard converts with `toString()` are represented by their text. */
  datatype Field = Missing | Text(s: string)

  /** The code points ECMAScript counts as WhiteSpace or LineTerminator:
      exactly what `String.prototype.trim` removes at both ends. */
  predicate IsWhitespace(c: char)
  {
    || c == '\t' || c == '\n' || c == '\U{B}' || c == '\U{C}' || c == '\r' || c == ' '
    || c == '\U{A0}' || c == '\U{1680}' || ('\U{2000}' <= c <= '\U{200A}')
    || c == '\U{2028}' || c == '\U{2029}' || c == '\U{202F}' || c == '\U{205F}'
    || c == '\U{3000}' || c == '\U{FEFF}'
  }

  /** Drops leading whitespace: the result is a suffix of `s`, what was dropped is all
      whitespace, and the result does not start with whitespace. */
  function TrimStart(s: string): (r: string)
    ensures |r| <= |s| && r == s[|s| - |r|..]
    ensures forall i :: 0 <= i < |s| - |r| ==> IsWhitespace(s[i])
    ensures r == [] || !IsWhitespace(r[0])
    decreases |s|
  {
    if s != [] && IsWhitespace(s[0]) then TrimStart(s[1..]) else s
  }

  /** Drops trailing whitespace: the result is a prefix of `s`, what was dropped is all
      whitespace, and the result does not end with whitespace. */
  function TrimEnd(s: string): (r: string)
    ensures |r| <= |s| && r == s[..|r|]
    ensures forall i :: |r| <= i < |s| ==> IsWhitespace(s[i])
    ensures r == [] || !IsWhitespace(r[|r| - 1])
    decreases |s|
  {
    if s != [] && IsWhitespace(s[|s| - 1]) then TrimEnd(s[..|s| - 1]) else s
  }

  /** `String.prototype.trim`. */
  function Trim(s: string): string
  {
    TrimEnd(TrimStart(s))
  }

  /** What `trim` keeps is a contiguous piece of the input, surrounded only by whitespace. */
  lemma TrimShape(s: string)
    ensures exists a, b ::
              && 0 <= a <= b <= |s| && Trim(s) == s[a..b]
              && (forall i :: 0 <= i < a ==> IsWhitespace(s[i]))
              && (forall i :: b <= i < |s| ==> IsWhitespace(s[i]))
  {
    var t := TrimStart(s);
    var r := TrimEnd(t);
    var a := |s| - |t|;
    var b := a + |r|;
    assert Trim(s) == s[a..b] by {
      assert t == s[a..];
      assert r == t[..|r|];
    }
    assert forall i :: b <= i < |s| ==> IsWhitespace(s[i]) by {
      forall i | b <= i < |s|
        ensures IsWhitespace(s[i])
      {
        assert s[i] == t[i - a];
      }
    }
  }

  /** What `trim` returns neither starts nor ends with whitespace. */
  lemma TrimEnds(s: string)
    ensures Trim(s) == [] || (!IsWhitespace(Trim(s)[0]) && !IsWhitespace(Trim(s)[|Trim(s)| - 1]))
  {
    var t := TrimStart(s);
    var r := TrimEnd(t);
    if r != [] {
      assert r == t[..|r|];
      assert r[0] == t[0];
    }
  }

  /** Trimming twice is trimming once. */
  lemma TrimIdempotent(s: string)
    ensures Trim(Trim(s)) == Trim(s)
  {
    var r := Trim(s);
    TrimEnds(s);
    assert TrimStart(r) == r;
    assert TrimEnd(r) == r;
  }

  /** Trimming a string that neither starts nor ends with whitespace changes nothing. */
  lemma TrimNothing(t: string)
    requires t == [] || (!IsWhitespace(t[0]) && !IsWhitespace(t[|t| - 1]))
    ensures Trim(t) == t
  {
    assert TrimStart(t) == t;
  }

  /** `Character.toLowerCase` and `toUpperCase` on one character (ASCII letters). */
  function LowerChar(c: char): char
  {
    if 'A' <= c <= 'Z' then (c as int + 32) as char else c
  }

  function UpperChar(c: char): char
  {
    if 'a' <= c <= 'z' then (c as int - 32) as char else c
  }

  /** `String.prototype.toLowerCase`, letter by letter. */
  function Lower(s: string): (r: string)
    ensures |r| == |s|
    decreases |s|
  {
    if s == [] then [] else [LowerChar(s[0])] + Lower(s[1..])
  }

  /** `String.prototype.toUpperCase`, letter by letter. */
  function Upper(s: string): (r: string)
    ensures |r| == |s|
    decreases |s|
  {
    if s == [] then [] else [UpperChar(s[0])] + Upper(s[1..])
  }

  /** Case conversion keeps the length and works position by position. */
  lemma {:induction false} UpperAt(s: string)
    ensures |Upper(s)| == |s|
    ensures forall i :: 0 <= i < |s| ==> Upper(s)[i] == UpperChar(s[i])
    decreases |s|
  {
    if s != [] {
      UpperAt(s[1..]);
    }
  }

  lemma {:induction false} LowerAt(s: string)
    ensures |Lower(s)| == |s|
    ensures forall i :: 0 <= i < |s| ==> Lower(s)[i] == LowerChar(s[i])
    decreases |s|
  {
    if s != [] {
      LowerAt(s[1..]);
    }
  }

  /** Upper-casing an upper-cased string changes nothing. */
  lemma {:induction false} UpperIdempotent(s: string)
    ensures Upper(Upper(s)) == Upper(s)
    decreases |s|
  {
    if s != [] {
      UpperIdempotent(s[1..]);
      assert Upper(s)[1..] == Upper(s[1..]);
    }
  }

  /** Lower-casing a lower-cased string changes nothing. */
  lemma {:induction false} LowerIdempotent(s: string)
    ensures Lower(Lower(s)) == Lower(s)
    decreases |s|
  {
    if s != [] {
      LowerIdempotent(s[1..]);
      assert Lower(s)[1..] == Lower(s[1..]);
    }
  }

  /** `x?.trim()` and `x?.toString().trim()`: absent stays absent. */
  function TrimField(f: Field): Field
  {
    match f
    case Missing => Missing
    case Text(s) => Text(Trim(s))
  }

  /** JavaScript truthiness of an optional string: present and non-empty. */
  predicate Truthy(f: Field)
  {
    f.Text? && f.s != ""
  }

  /** `x?.trim()` keeps an absent value absent and a present one present, and trimming twice
      is trimming once. */
  lemma TrimFieldIdempotent(f: Field)
    ensures TrimField(f).Missing? <==> f.Missing?
    ensures TrimField(TrimField(f)) == TrimField(f)
  {
    if f.Text? {
      TrimIdempotent(f.s);
    }
  }

  /** A trimmed value is truthy exactly when it is present and holds some character that is
      not white space. */
  lemma TruthyTrimmed(f: Field)
    ensures Truthy(TrimField(f)) <==> f.Text? && exists i :: 0 <= i < |f.s| && !IsWhitespace(f.s[i])
  {
    if f.Text? {
      TrimEmpty(f.s);
    }
  }

  /** Trimming leaves nothing exactly when every character is white space. */
  lemma TrimEmpty(s: string)
    ensures Trim(s) == [] <==> forall i :: 0 <= i < |s| ==> IsWhitespace(s[i])
  {
    var t := TrimStart(s);
    var k := |s| - |t|;
    if Trim(s) != [] {
      assert t[0] == s[k];
    }
  }

  /** The text of a present field, and "" for an absent one (used only where the field is
      known to be present). */
  function TextOf(f: Field): string
  {
    match f
    case Missing => ""
    case Text(s) => s
  }

  /** The key under which `obj[x]` stores a value: a string as itself, `undefined` as the
      string "undefined". */
  function PropertyKey(f: Field): string
  {
    match f
    case Missing => "undefined"
    case Text(s) => s
  }

  /** Two values land under the same key exactly when they are equal, or when one is absent
      and the other is the text "undefined". */
  lemma PropertyKeyCollisions(a: Field, b: Field)
    ensures PropertyKey(a) == PropertyKey(b) <==>
              a == b || (a == Missing && b == Text("undefined")) || (a == Text("undefined") && b == Missing)
  {
  }

  /** `x?.trim().toLowerCase()`, the form in which statuses are compared. */
  function Normalized(f: Field): (r: Field)
    ensures r.Missing? <==> f.Missing?
  {
    match f
    case Missing => Missing
    case Text(s) => Text(Lower(Trim(s)))
  }

  /** Comparing statuses after trimming and lower-casing makes the comparison ignore case
      and surrounding whitespace, and comparing again changes nothing. */
  lemma NormalizedIdempotent(f: Field)
    ensures Normalized(Normalized(f)) == Normalized(f)
  {
    if f.Text? {
      var l := Lower(Trim(f.s));
      LowerAt(Trim(f.s));
      TrimEnds(f.s);
      LowerNoWhitespaceEnds(Trim(f.s));
      assert TrimStart(l) == l;
      assert TrimEnd(l) == l;
      LowerIdempotent(Trim(f.s));
    }
  }

  lemma LowerNoWhitespaceEnds(t: string)
    requires t == [] || (!IsWhitespace(t[0]) && !IsWhitespace(t[|t| - 1]))
    ensures Lower(t) == [] || (!IsWhitespace(Lower(t)[0]) && !IsWhitespace(Lower(t)[|Lower(t)| - 1]))
  {
    LowerAt(t);
  }

  /** Lower-casing never turns a character into whitespace or whitespace into anything else. */
  lemma LowerCharWhitespace(c: char)
    ensures IsWhitespace(LowerChar(c)) <==> IsWhitespace(c)
  {
  }

  /** Lower-casing a prefix is taking a prefix of the lower-cased string. */
  lemma LowerPrefix(s: string, n: nat)
    requires n <= |s|
    ensures Lower(s[..n]) == Lower(s)[..n]
  {
    LowerAt(s);
    LowerAt(s[..n]);
  }

  /** Trimming and lower-casing commute, because neither affects what the other looks at.
      So lower-casing a status in place leaves its trimmed, lower-cased form unchanged. */
  lemma {:induction false} TrimStartLower(s: string)
    ensures TrimStart(Lower(s)) == Lower(TrimStart(s))
    decreases |s|
  {
    if s != [] {
      LowerCharWhitespace(s[0]);
      assert Lower(s)[1..] == Lower(s[1..]);
      TrimStartLower(s[1..]);
    }
  }

  lemma {:induction false} TrimEndLower(s: string)
    ensures TrimEnd(Lower(s)) == Lower(TrimEnd(s))
    decreases |s|
  {
    LowerAt(s);
    if s != [] {
      var n := |s| - 1;
      LowerCharWhitespace(s[n]);
      LowerPrefix(s, n);
      TrimEndLower(s[..n]);
    }
  }

  lemma TrimLower(s: string)
    ensures Trim(Lower(s)) == Lower(Trim(s))
  {
    TrimStartLower(s);
    TrimEndLower(TrimStart(s));
  }
}
