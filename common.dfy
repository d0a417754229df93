/**
 * Small value types and string operations shared by the whole model:
 * the Kotlin nullable (`T?`) as an Option, and the `kotlin.text` functions
 * the core uses (`isDigit`, `isLetter`, `isWhitespace`, `trim`, `isBlank`,
 * `lowercase`, `replace(c, "")`, `contains`, `all { … }`), restricted to ASCII.
 */
module Common {

  /** A Kotlin nullable value. */
  datatype Option<+T> = None | Some(value: T) {
    /** `this ?: d` */
    function GetOr(d: T): T {
      match this
      case Some(v) => v
      case None => d
    }
  }

  // ---------------------------------------------------------------------
  // Characters

  predicate IsDigit(c: char) {
    '0' <= c <= '9'
  }

  predicate IsLetter(c: char) {
    ('a' <= c <= 'z') || ('A' <= c <= 'Z')
  }

  /** `Char.isWhitespace` on the ASCII range: TAB..CR, FS..US and SPACE. */
  predicate IsWhitespace(c: char) {
    ('\t' <= c <= '\r') || ('\U{1C}' <= c <= ' ')
  }

  function LowerChar(c: char): char {
    if 'A' <= c <= 'Z' then (c as int + 32) as char else c
  }

  // ---------------------------------------------------------------------
  // Whole-string predicates

  /** `s.all { p(it) }` */
  function AllChars(s: string, p: char -> bool): (r: bool)
    ensures r <==> forall i :: 0 <= i < |s| ==> p(s[i])
  {
    if s == [] then true else p(s[0]) && AllChars(s[1..], p)
  }

  /** `s.any { p(it) }` */
  function AnyChar(s: string, p: char -> bool): (r: bool)
    ensures r <==> exists i :: 0 <= i < |s| && p(s[i])
  {
    if s == [] then false else p(s[0]) || AnyChar(s[1..], p)
  }

  /** `s.isBlank()`: empty or whitespace only. */
  predicate IsBlank(s: string) {
    AllChars(s, IsWhitespace)
  }

  predicate IsNotBlank(s: string) {
    !IsBlank(s)
  }

  // ---------------------------------------------------------------------
  // lowercase(), replace(c, "")

  function Lower(s: string): (r: string)
    ensures |r| == |s|
    ensures forall i :: 0 <= i < |s| ==> r[i] == LowerChar(s[i])
  {
    seq(|s|, i requires 0 <= i < |s| => LowerChar(s[i]))
  }

  /** `s.replace(c.toString(), "")`: every occurrence of `c` removed, order kept. */
  function RemoveChar(s: string, c: char): (r: string)
    ensures |r| <= |s|
    ensures forall i :: 0 <= i < |r| ==> r[i] != c
  {
    if s == [] then [] else (if s[0] == c then [] else [s[0]]) + RemoveChar(s[1..], c)
  }

  lemma {:induction false} RemoveCharConcat(a: string, b: string, c: char)
    ensures RemoveChar(a + b, c) == RemoveChar(a, c) + RemoveChar(b, c)
  {
    if a == [] {
      assert a + b == b;
    } else {
      assert (a + b)[1..] == a[1..] + b;
      RemoveCharConcat(a[1..], b, c);
    }
  }

  lemma {:induction false} RemoveCharAbsent(s: string, c: char)
    requires forall i :: 0 <= i < |s| ==> s[i] != c
    ensures RemoveChar(s, c) == s
  {
    if s != [] {
      RemoveCharAbsent(s[1..], c);
    }
  }

  /** Removing one character keeps the first character that is not it. */
  lemma {:induction false} RemoveCharHead(s: string, c: char)
    requires s != [] && s[0] != c
    ensures RemoveChar(s, c) != [] && RemoveChar(s, c)[0] == s[0]
  {
  }

  lemma {:induction false} RemoveCharLast(s: string, c: char)
    requires s != [] && s[|s| - 1] != c
    ensures RemoveChar(s, c) != [] && RemoveChar(s, c)[|RemoveChar(s, c)| - 1] == s[|s| - 1]
  {
    var init := s[..|s| - 1];
    assert s == init + [s[|s| - 1]];
    RemoveCharConcat(init, [s[|s| - 1]], c);
    assert RemoveChar([s[|s| - 1]], c) == [s[|s| - 1]];
  }

  lemma {:induction false} RemoveCharKeeps(s: string, c: char, d: char)
    requires forall i :: 0 <= i < |s| ==> s[i] != d
    ensures forall i :: 0 <= i < |RemoveChar(s, c)| ==> RemoveChar(s, c)[i] != d
  {
    if s != [] {
      RemoveCharKeeps(s[1..], c, d);
      var r := RemoveChar(s, c);
      assert r == (if s[0] == c then [] else [s[0]]) + RemoveChar(s[1..], c);
    }
  }

  // ---------------------------------------------------------------------
  // trim()

  function TrimStart(s: string): (r: string)
    ensures |r| <= |s| && r == s[|s| - |r|..]
    ensures r == [] || !IsWhitespace(r[0])
  {
    if s != [] && IsWhitespace(s[0]) then TrimStart(s[1..]) else s
  }

  function TrimEnd(s: string): (r: string)
    ensures |r| <= |s| && r == s[..|r|]
    ensures r == [] || !IsWhitespace(r[|r| - 1])
  {
    if s != [] && IsWhitespace(s[|s| - 1]) then TrimEnd(s[..|s| - 1]) else s
  }

  /** `s.trim()`: leading and trailing whitespace removed. */
  function Trim(s: string): string {
    TrimEnd(TrimStart(s))
  }

  lemma TrimEndKeepsHead(s: string)
    requires s != [] && !IsWhitespace(s[0])
    ensures TrimEnd(s) != [] && TrimEnd(s)[0] == s[0]
  {
  }

  /** A trimmed string starts and ends with a non-whitespace character. */
  lemma TrimmedEnds(s: string)
    ensures Trim(s) == [] || (!IsWhitespace(Trim(s)[0]) && !IsWhitespace(Trim(s)[|Trim(s)| - 1]))
  {
    var t := TrimStart(s);
    if t != [] {
      TrimEndKeepsHead(t);
    }
  }

  lemma TrimNoOp(s: string)
    requires s == [] || (!IsWhitespace(s[0]) && !IsWhitespace(s[|s| - 1]))
    ensures Trim(s) == s
  {
  }

  /** Trimming twice is trimming once. */
  lemma TrimIdempotent(s: string)
    ensures Trim(Trim(s)) == Trim(s)
  {
    TrimmedEnds(s);
    TrimNoOp(Trim(s));
  }

  /** Leading whitespace in front of a block that starts with a non-whitespace character. */
  lemma {:induction false} TrimStartConcat(x: string, z: string)
    requires z != [] && !IsWhitespace(z[0])
    ensures TrimStart(x + z) == TrimStart(x) + z
    decreases |x|
  {
    if x == [] {
      assert x + z == z;
    } else if IsWhitespace(x[0]) {
      assert (x + z)[1..] == x[1..] + z;
      TrimStartConcat(x[1..], z);
    }
  }

  /** Trailing whitespace after a block that ends with a non-whitespace character. */
  lemma {:induction false} TrimEndConcat(z: string, y: string)
    requires z != [] && !IsWhitespace(z[|z| - 1])
    ensures TrimEnd(z + y) == z + TrimEnd(y)
    decreases |y|
  {
    if y == [] {
      assert z + y == z;
    } else if IsWhitespace(y[|y| - 1]) {
      assert (z + y)[..|z + y| - 1] == z + y[..|y| - 1];
      TrimEndConcat(z, y[..|y| - 1]);
    }
  }

  /** Trimming never cuts into a block with non-whitespace ends. */
  lemma TrimAround(x: string, p: string, y: string)
    requires p != [] && !IsWhitespace(p[0]) && !IsWhitespace(p[|p| - 1])
    ensures Trim(x + p + y) == TrimStart(x) + p + TrimEnd(y)
  {
    assert x + p + y == x + (p + y);
    TrimStartConcat(x, p + y);
    assert TrimStart(x) + (p + y) == (TrimStart(x) + p) + y;
    TrimEndConcat(TrimStart(x) + p, y);
  }

  /** Trimming keeps a character out if it was out. */
  lemma TrimKeepsAbsent(s: string, c: char)
    requires forall i :: 0 <= i < |s| ==> s[i] != c
    ensures forall i :: 0 <= i < |Trim(s)| ==> Trim(s)[i] != c
  {
    var t := TrimStart(s);
    assert forall i :: 0 <= i < |t| ==> t[i] == s[|s| - |t| + i];
    var u := TrimEnd(t);
    assert forall i :: 0 <= i < |u| ==> u[i] == t[i];
  }

  // ---------------------------------------------------------------------
  // contains()

  function StartsWith(s: string, t: string): bool {
    |t| <= |s| && s[..|t|] == t
  }

  /** `t` occurs in `s` starting at index `i`. */
  predicate OccursAt(s: string, t: string, i: int) {
    0 <= i <= |s| - |t| && s[i..i + |t|] == t
  }

  /** `s.contains(t)`: `t` occurs as a contiguous block of `s`. */
  function Contains(s: string, t: string): (r: bool)
    ensures r <==> exists i :: OccursAt(s, t, i)
    decreases |s|
  {
    if |t| > |s| then false
    else if StartsWith(s, t) then
      assert OccursAt(s, t, 0);
      true
    else
      var r := Contains(s[1..], t);
      assert r ==> exists i :: OccursAt(s, t, i) by {
        if r {
          var i :| OccursAt(s[1..], t, i);
          assert s[1..][i..i + |t|] == s[i + 1..i + 1 + |t|];
          assert OccursAt(s, t, i + 1);
        }
      }
      assert (exists i :: OccursAt(s, t, i)) ==> r by {
        if exists i :: OccursAt(s, t, i) {
          var i :| OccursAt(s, t, i);
          assert i != 0;
          assert s[1..][i - 1..i - 1 + |t|] == s[i..i + |t|];
          assert OccursAt(s[1..], t, i - 1);
        }
      }
      r
  }

  /** A block of a string is contained in it: `a + t + b` contains `t`. */
  lemma ContainsMiddle(a: string, t: string, b: string)
    ensures Contains(a + t + b, t)
  {
    var s := a + t + b;
    assert s[|a|..|a| + |t|] == t;
    assert OccursAt(s, t, |a|);
  }
}
