/** Python string operations the relay relies on, as total functions on `seq<char>`:
    `sep.join(parts)`, `s[:-1]`, `s.upper()` on ASCII letters, `s.split(sep)`,
    `s.replace(find, rep)` and `str(n)` for a non-negative integer. */
module Text {

  /** `sep.join(parts)`. */
  function Join(parts: seq<string>, sep: string): string
  {
    if |parts| == 0 then ""
    else if |parts| == 1 then parts[0]
    else parts[0] + sep + Join(parts[1..], sep)
  }

  /** Joining two non-empty lists puts exactly one separator between their joins. */
  lemma {:induction false} JoinAppend(p: seq<string>, q: seq<string>, sep: string)
    requires |p| > 0 && |q| > 0
    ensures Join(p + q, sep) == Join(p, sep) + sep + Join(q, sep)
  {
    assert (p + q)[0] == p[0];
    if |p| == 1 {
      assert (p + q)[1..] == q;
    } else {
      assert (p + q)[1..] == p[1..] + q;
      JoinAppend(p[1..], q, sep);
    }
  }

  /** `s[:-1]`: everything but the last character; the empty string stays empty. */
  function DropLast(s: string): (r: string)
    ensures |s| > 0 ==> s == r + [s[|s| - 1]]
    ensures |s| == 0 ==> r == ""
  {
    if |s| == 0 then "" else s[..|s| - 1]
  }

  /** `c.upper()` for the characters a calendar property name is made of. */
  function UpperChar(c: char): char
  {
    if 'a' <= c <= 'z' then (c as int - 'a' as int + 'A' as int) as char else c
  }

  /** `s.upper()`, restricted to ASCII letters. */
  function Upper(s: string): (r: string)
    ensures |r| == |s|
    ensures forall i :: 0 <= i < |s| ==> r[i] == UpperChar(s[i])
  {
    seq(|s|, i requires 0 <= i < |s| => UpperChar(s[i]))
  }

  /** `f` occurs somewhere in `s` (Python's `f in s`). */
  predicate Occurs(f: string, s: string)
  {
    f <= s || (s != [] && Occurs(f, s[1..]))
  }

  /** `s.split(f)` for a non-empty separator: the pieces between the
      non-overlapping occurrences of `f`, found from left to right. */
  function Split(s: string, f: string): (parts: seq<string>)
    requires f != []
    ensures |parts| > 0
    decreases |s|
  {
    if s == [] then [""]
    else if f <= s then [""] + Split(s[|f|..], f)
    else
      var rest := Split(s[1..], f);
      [[s[0]] + rest[0]] + rest[1..]
  }

  /** `s.replace(find, rep)` for a non-empty `find`: scan from the left,
      replace every occurrence and resume after it. */
  function ReplaceFrom(s: string, find: string, rep: string): string
    requires find != []
    decreases |s|
  {
    if s == [] then []
    else if find <= s then rep + ReplaceFrom(s[|find|..], find, rep)
    else [s[0]] + ReplaceFrom(s[1..], find, rep)
  }

  /** `s.replace("", rep)`: `rep` before every character and once at the end. */
  function Interleave(s: string, rep: string): string
  {
    if s == [] then rep else rep + [s[0]] + Interleave(s[1..], rep)
  }

  /** Python's `s.replace(find, rep)` (all occurrences). A non-empty `find`
      splits the text and the pieces are joined with `rep`; an empty `find`
      puts `rep` at each of the `|s| + 1` positions around the characters. */
  function Replace(s: string, find: string, rep: string): (r: string)
    ensures find != [] ==> r == Join(Split(s, find), rep)
    ensures find == [] ==> r == Join([""] + Chars(s) + [""], rep)
    ensures find == [] ==> |r| == |s| + (|s| + 1) * |rep|
  {
    if find == [] then
      InterleaveIsJoinOfChars(s, rep);
      ReplaceEmptyFindLength(s, rep);
      Interleave(s, rep)
    else
      ReplaceFromIsJoinOfSplit(s, find, rep);
      ReplaceFrom(s, find, rep)
  }

  /** The left-to-right scan agrees with `rep.join(s.split(find))`. */
  lemma {:induction false} ReplaceFromIsJoinOfSplit(s: string, f: string, r: string)
    requires f != []
    ensures ReplaceFrom(s, f, r) == Join(Split(s, f), r)
    decreases |s|
  {
    if s == [] {
    } else if f <= s {
      ReplaceFromIsJoinOfSplit(s[|f|..], f, r);
      JoinEmptyHead(Split(s[|f|..], f), r);
    } else {
      ReplaceFromIsJoinOfSplit(s[1..], f, r);
      JoinConsHead(s[0], Split(s[1..], f), r);
    }
  }

  lemma JoinEmptyHead(parts: seq<string>, sep: string)
    requires |parts| > 0
    ensures Join([""] + parts, sep) == sep + Join(parts, sep)
  {
    assert ([""] + parts)[1..] == parts;
  }

  lemma JoinConsHead(c: char, parts: seq<string>, sep: string)
    requires |parts| > 0
    ensures Join([[c] + parts[0]] + parts[1..], sep) == [c] + Join(parts, sep)
  {
    var q := [[c] + parts[0]] + parts[1..];
    if |parts| > 1 {
      assert q[1..] == parts[1..];
    }
  }

  /** A non-empty `find` that does not occur leaves the text unchanged. */
  lemma {:induction false} ReplaceAbsent(s: string, find: string, rep: string)
    requires find != [] && !Occurs(find, s)
    ensures Replace(s, find, rep) == s
    decreases |s|
  {
    if s != [] {
      ReplaceAbsent(s[1..], find, rep);
    }
  }

  /** Once `find` no longer occurs in the result, replacing again changes nothing. */
  lemma ReplaceIdempotentWhenGone(s: string, find: string, rep: string)
    requires find != [] && !Occurs(find, Replace(s, find, rep))
    ensures Replace(Replace(s, find, rep), find, rep) == Replace(s, find, rep)
  {
    ReplaceAbsent(Replace(s, find, rep), find, rep);
  }

  /** Replacing a string by itself is the identity, the empty `find` included. */
  lemma {:induction false} ReplaceBySelf(s: string, find: string)
    ensures Replace(s, find, find) == s
    decreases |s|
  {
    if find == [] {
      InterleaveEmpty(s);
    } else if s != [] {
      if find <= s {
        ReplaceBySelf(s[|find|..], find);
        assert s == find + s[|find|..];
      } else {
        ReplaceBySelf(s[1..], find);
        assert s == [s[0]] + s[1..];
      }
    }
  }

  lemma {:induction false} InterleaveEmpty(s: string)
    ensures Interleave(s, "") == s
  {
    if s != [] {
      InterleaveEmpty(s[1..]);
    }
  }

  /** `list(s)`: each character as a one-character string. */
  function Chars(s: string): (parts: seq<string>)
    ensures |parts| == |s|
  {
    seq(|s|, i requires 0 <= i < |s| => [s[i]])
  }

  /** `s.replace("", rep)` is `rep.join([""] + list(s) + [""])`: a copy of
      `rep` before every character and one after the last. */
  lemma InterleaveIsJoinOfChars(s: string, rep: string)
    ensures Interleave(s, rep) == Join([""] + Chars(s) + [""], rep)
  {
    InterleaveTail(s, rep);
    assert [""] + Chars(s) + [""] == [""] + (Chars(s) + [""]);
    JoinEmptyHead(Chars(s) + [""], rep);
  }

  lemma {:induction false} InterleaveTail(s: string, rep: string)
    ensures Interleave(s, rep) == rep + Join(Chars(s) + [""], rep)
    decreases |s|
  {
    if s == [] {
      assert Chars(s) + [""] == [""];
    } else {
      InterleaveTail(s[1..], rep);
      var rest := Chars(s[1..]) + [""];
      assert Chars(s) + [""] == [[s[0]]] + rest;
      assert ([[s[0]]] + rest)[1..] == rest;
    }
  }

  /** `s.replace("", rep)` inserts `rep` at each of the `|s| + 1` positions. */
  lemma {:induction false} ReplaceEmptyFindLength(s: string, rep: string)
    ensures |Interleave(s, rep)| == |s| + (|s| + 1) * |rep|
  {
    if s != [] {
      ReplaceEmptyFindLength(s[1..], rep);
      assert |Interleave(s, rep)| == |rep| + 1 + |Interleave(s[1..], rep)|;
      assert (|s| - 1 + 1) * |rep| + |rep| == (|s| + 1) * |rep|;
    }
  }

  predicate IsDigit(c: char)
  {
    '0' <= c <= '9'
  }

  predicate AllDigits(s: string)
  {
    forall i :: 0 <= i < |s| ==> IsDigit(s[i])
  }

  function DigitChar(d: nat): (c: char)
    requires d < 10
    ensures IsDigit(c) && c as int - '0' as int == d
  {
    ('0' as int + d) as char
  }

  /** `str(n)` for a non-negative integer: decimal digits, no leading zero. */
  function NatToString(n: nat): (s: string)
    ensures |s| > 0 && AllDigits(s)
    ensures s[0] == '0' <==> n == 0
    decreases n
  {
    if n < 10 then [DigitChar(n)] else NatToString(n / 10) + [DigitChar(n % 10)]
  }

  /** `int(s)` for a string of decimal digits. */
  function DigitsValue(s: string): nat
    requires AllDigits(s)
  {
    if s == [] then 0 else DigitsValue(s[..|s| - 1]) * 10 + (s[|s| - 1] as int - '0' as int)
  }

  /** `int(str(n)) == n`: the decimal text of a status code gives the code back. */
  lemma {:induction false} DigitsValueOfNatToString(n: nat)
    ensures DigitsValue(NatToString(n)) == n
    decreases n
  {
    var s := NatToString(n);
    if n >= 10 {
      DigitsValueOfNatToString(n / 10);
      assert s[..|s| - 1] == NatToString(n / 10);
    } else {
      assert s[..|s| - 1] == [];
    }
  }

  /** Different codes have different decimal texts. */
  lemma NatToStringInjective(m: nat, n: nat)
    requires NatToString(m) == NatToString(n)
    ensures m == n
  {
    DigitsValueOfNatToString(m);
    DigitsValueOfNatToString(n);
  }
}
