/**
  Pieces of the JavaScript runtime that the dashboard's handlers rely on:
  an optional value, String.prototype.trim, toLowerCase on ASCII letters,
  String.prototype.includes, JavaScript truthiness of strings, and the
  decimal rendering of a non-negative integer (Number.prototype.toString).
 */
module Js {

  datatype Option<T> = None | Some(value: T)

  /** xs is ys with some elements dropped, the rest kept in order. */
  predicate IsSubsequence<T(==)>(xs: seq<T>, ys: seq<T>)
    decreases |ys|
  {
    if xs == [] then true
    else if ys == [] then false
    else if xs[0] == ys[0] then IsSubsequence(xs[1..], ys[1..])
    else IsSubsequence(xs, ys[1..])
  }

  /** The browser's localStorage, as a plain key-value map. */
  type Store = map<string, string>

  /** localStorage.getItem(key) followed by a truthiness test: present and non-empty. */
  predicate Stored(store: Store, key: string)
  {
    key in store && store[key] != ""
  }

  /** After `setItem(key, v)`, the key reads back as truthy exactly when v is
      non-empty, and every other key reads as before. */
  lemma StoredAfterWrite(store: Store, key: string, v: string, other: string)
    ensures Stored(store[key := v], key) <==> v != ""
    ensures other != key ==> (Stored(store[key := v], other) <==> Stored(store, other))
  {
  }

  // ---------------------------------------------------------------------------
  // String.prototype.trim
  // ---------------------------------------------------------------------------

  /** The WhiteSpace and LineTerminator code points that trim removes
      (ECMAScript 2023, sections 12.2 and 12.3). */
  predicate IsWhitespace(c: char)
  {
    c == '\U{9}' || c == '\U{A}' || c == '\U{B}' || c == '\U{C}' || c == '\U{D}' ||
    c == '\U{20}' || c == '\U{A0}' || c == '\U{1680}' ||
    ('\U{2000}' <= c <= '\U{200A}') ||
    c == '\U{2028}' || c == '\U{2029}' || c == '\U{202F}' || c == '\U{205F}' ||
    c == '\U{3000}' || c == '\U{FEFF}'
  }

  /** Every character of s is whitespace (vacuously true of ""). */
  predicate AllWhitespace(s: string)
  {
    forall i :: 0 <= i < |s| ==> IsWhitespace(s[i])
  }

  /** s without its leading whitespace. */
  function TrimStart(s: string): string
    decreases |s|
  {
    if s != [] && IsWhitespace(s[0]) then TrimStart(s[1..]) else s
  }

  /** TrimStart keeps a suffix of s that does not start with whitespace, and
      what it drops is whitespace. */
  lemma {:induction false} TrimStartSuffix(s: string)
    ensures |TrimStart(s)| <= |s|
    ensures forall i :: 0 <= i < |TrimStart(s)| ==> TrimStart(s)[i] == s[|s| - |TrimStart(s)| + i]
    ensures TrimStart(s) == "" || !IsWhitespace(TrimStart(s)[0])
    ensures AllWhitespace(s[..|s| - |TrimStart(s)|])
    decreases |s|
  {
    if s != [] && IsWhitespace(s[0]) {
      var r := TrimStart(s[1..]);
      TrimStartSuffix(s[1..]);
      assert s[..|s| - |r|] == [s[0]] + s[1..][..|s| - 1 - |r|];
    } else {
      assert s[..0] == [];
    }
  }

  /** s without its trailing whitespace. */
  function TrimEnd(s: string): string
    decreases |s|
  {
    if s != [] && IsWhitespace(s[|s| - 1]) then TrimEnd(s[..|s| - 1]) else s
  }

  /** TrimEnd keeps a prefix of s that does not end with whitespace, and what
      it drops is whitespace. */
  lemma {:induction false} TrimEndPrefix(s: string)
    ensures |TrimEnd(s)| <= |s|
    ensures forall i :: 0 <= i < |TrimEnd(s)| ==> TrimEnd(s)[i] == s[i]
    ensures TrimEnd(s) == "" || !IsWhitespace(TrimEnd(s)[|TrimEnd(s)| - 1])
    ensures AllWhitespace(s[|TrimEnd(s)|..])
    decreases |s|
  {
    if s != [] && IsWhitespace(s[|s| - 1]) {
      var r := TrimEnd(s[..|s| - 1]);
      TrimEndPrefix(s[..|s| - 1]);
      assert s[|r|..] == s[..|s| - 1][|r|..] + [s[|s| - 1]];
    } else {
      assert s[|s|..] == [];
    }
  }

  /** s.trim(): s without its leading and trailing whitespace. */
  function Trim(s: string): (r: string)
    ensures |r| <= |s|
    ensures r != "" ==> !IsWhitespace(r[0]) && !IsWhitespace(r[|r| - 1])
  {
    TrimStartSuffix(s);
    TrimEndPrefix(TrimStart(s));
    TrimEnd(TrimStart(s))
  }

  /** Where trim() cuts: the result is s[a..b], and both cut-off parts are
      whitespace. */
  lemma TrimBounds(s: string) returns (a: nat, b: nat)
    ensures a <= b <= |s| && Trim(s) == s[a..b]
    ensures AllWhitespace(s[..a]) && AllWhitespace(s[b..])
  {
    var t := TrimStart(s);
    var e := TrimEnd(t);
    TrimStartSuffix(s);
    TrimEndPrefix(t);
    a, b := |s| - |t|, |s| - |t| + |e|;
    calc {
      s[a..b];
      s[a..][..|e|];
      t[..|e|];
      e;
    }
    assert t[|e|..] == s[b..];
  }

  /** trim() yields a contiguous piece of s with no whitespace at either end,
      and what it cut off on both sides is whitespace. */
  lemma TrimIsMaximalSlice(s: string)
    ensures exists a, b :: 0 <= a <= b <= |s| && Trim(s) == s[a..b] &&
                           AllWhitespace(s[..a]) && AllWhitespace(s[b..])
    ensures Trim(s) == "" || (!IsWhitespace(Trim(s)[0]) && !IsWhitespace(Trim(s)[|Trim(s)| - 1]))
  {
    var a, b := TrimBounds(s);
    var t := TrimStart(s);
    TrimStartSuffix(s);
    TrimEndPrefix(t);
    if Trim(s) != "" {
      assert Trim(s)[0] == t[0];
    }
  }

  /** `!s.trim()`: the string is empty once trimmed. */
  predicate IsBlank(s: string)
    ensures s == "" ==> IsBlank(s)
    ensures s != "" && !IsWhitespace(s[0]) ==> !IsBlank(s)
  {
    TrimEndPrefix(s);
    Trim(s) == ""
  }

  /** A string is blank exactly when it consists of whitespace only. */
  lemma BlankIffAllWhitespace(s: string)
    ensures IsBlank(s) <==> AllWhitespace(s)
  {
    var t := TrimStart(s);
    TrimStartSuffix(s);
    TrimEndPrefix(t);
    if t != "" {
      // t keeps a non-whitespace first character, and TrimEnd never drops it
      assert t[0] == s[|s| - |t|];
    } else {
      assert s[..|s|] == s;
    }
  }

  // ---------------------------------------------------------------------------
  // String.prototype.toLowerCase and String.prototype.includes
  // ---------------------------------------------------------------------------

  function LowerChar(c: char): (r: char)
  {
    if 'A' <= c <= 'Z' then (c as int + 32) as char else c
  }

  /** s.toLowerCase(), for the ASCII letters A-Z; other characters are kept. */
  function ToLower(s: string): (r: string)
    ensures |r| == |s|
    ensures forall i :: 0 <= i < |s| ==> r[i] == LowerChar(s[i])
  {
    seq(|s|, i requires 0 <= i < |s| => LowerChar(s[i]))
  }

  /** Lower-casing is idempotent, so a lower-cased key is its own lower case. */
  lemma ToLowerIdempotent(s: string)
    ensures ToLower(ToLower(s)) == ToLower(s)
  {
  }

  /** `sub` occurs in s starting at index i. */
  predicate OccursAt(s: string, sub: string, i: nat)
  {
    i + |sub| <= |s| && s[i..i + |sub|] == sub
  }

  /** s.includes(sub), searching from index `from` onwards. */
  function IncludesFrom(s: string, sub: string, from: nat): (b: bool)
    requires from <= |s|
    ensures b <==> exists i :: from <= i <= |s| && OccursAt(s, sub, i)
    decreases |s| - from
  {
    if OccursAt(s, sub, from) then true
    else if from == |s| then false
    else IncludesFrom(s, sub, from + 1)
  }

  /** s.includes(sub). */
  function Includes(s: string, sub: string): (b: bool)
    ensures b <==> exists i :: 0 <= i <= |s| && OccursAt(s, sub, i)
  {
    IncludesFrom(s, sub, 0)
  }

  /** Every string includes the empty string. */
  lemma IncludesEmpty(s: string)
    ensures Includes(s, "")
  {
    assert OccursAt(s, "", 0);
  }

  // ---------------------------------------------------------------------------
  // Number.prototype.toString for the integers Date.now() returns
  // ---------------------------------------------------------------------------

  function DigitChar(d: nat): (c: char)
    requires d < 10
    ensures '0' <= c <= '9'
  {
    ('0' as int + d) as char
  }

  function DigitValue(c: char): (d: nat)
    requires '0' <= c <= '9'
    ensures d < 10
  {
    c as int - '0' as int
  }

  /** The decimal digits of n, most significant first, no leading zero. */
  function NatToString(n: nat): (s: string)
    ensures |s| >= 1
    ensures forall i :: 0 <= i < |s| ==> '0' <= s[i] <= '9'
    ensures |s| > 1 ==> s[0] != '0'
  {
    if n < 10 then [DigitChar(n)] else NatToString(n / 10) + [DigitChar(n % 10)]
  }

  /** Reads a string of decimal digits back as a number. */
  function ParseDecimal(s: string): (n: nat)
    requires forall i :: 0 <= i < |s| ==> '0' <= s[i] <= '9'
  {
    if s == [] then 0 else ParseDecimal(s[..|s| - 1]) * 10 + DigitValue(s[|s| - 1])
  }

  /** The rendering can be read back, so distinct numbers get distinct strings. */
  lemma {:induction false} ParseNatToString(n: nat)
    ensures ParseDecimal(NatToString(n)) == n
  {
    var s := NatToString(n);
    if n >= 10 {
      ParseNatToString(n / 10);
      assert s[..|s| - 1] == NatToString(n / 10);
    }
  }

  lemma NatToStringInjective(m: nat, n: nat)
    ensures NatToString(m) == NatToString(n) ==> m == n
  {
    ParseNatToString(m);
    ParseNatToString(n);
  }
}
