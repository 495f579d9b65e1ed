/** String helpers shared by the TypeScript and Rust halves: the character
    rewrites (`replace`), Rust's `trim`/`trim_end`, `split`, `join` and
    substring search. Strings are sequences of characters. */
module Text {

  /** `s.replace(c, d)` for single characters: each `c` becomes `d`, one for one. */
  function ReplaceChar(s: string, c: char, d: char): (r: string)
    ensures |r| == |s|
    ensures forall i :: 0 <= i < |s| ==> r[i] == (if s[i] == c then d else s[i])
  {
    seq(|s|, i requires 0 <= i < |s| => if s[i] == c then d else s[i])
  }

  /** After the rewrite no `c` is left (for `c != d`). */
  lemma ReplaceCharRemoves(s: string, c: char, d: char)
    requires c != d
    ensures c !in ReplaceChar(s, c, d)
  {
  }

  /** Rewriting twice is rewriting once. */
  lemma ReplaceCharIdempotent(s: string, c: char, d: char)
    ensures ReplaceChar(ReplaceChar(s, c, d), c, d) == ReplaceChar(s, c, d)
  {
  }

  /** Text without `c` is left unchanged. */
  lemma ReplaceCharIdentity(s: string, c: char, d: char)
    requires c !in s
    ensures ReplaceChar(s, c, d) == s
  {
  }

  lemma ReplaceCharConcat(a: string, b: string, c: char, d: char)
    ensures ReplaceChar(a + b, c, d) == ReplaceChar(a, c, d) + ReplaceChar(b, c, d)
  {
  }

  /** `s.replace(c, rep)` with a string replacement: every `c` becomes `rep`. */
  function ReplaceWith(s: string, c: char, rep: string): string {
    if s == [] then []
    else (if s[0] == c then rep else [s[0]]) + ReplaceWith(s[1..], c, rep)
  }

  /** Text without `c` is left unchanged. */
  lemma {:induction false} ReplaceWithAbsent(s: string, c: char, rep: string)
    requires c !in s
    ensures ReplaceWith(s, c, rep) == s
  {
    if s != [] {
      assert s[0] in s;
      assert forall x :: x in s[1..] ==> x in s;
      ReplaceWithAbsent(s[1..], c, rep);
      assert [s[0]] + s[1..] == s;
    }
  }

  /** When the replacement does not hold `c`, no `c` is left. */
  lemma {:induction false} ReplaceWithRemoves(s: string, c: char, rep: string)
    requires c !in rep
    ensures c !in ReplaceWith(s, c, rep)
  {
    if s != [] {
      ReplaceWithRemoves(s[1..], c, rep);
    }
  }

  lemma {:induction false} ReplaceWithConcat(a: string, b: string, c: char, rep: string)
    ensures ReplaceWith(a + b, c, rep) == ReplaceWith(a, c, rep) + ReplaceWith(b, c, rep)
  {
    if a == [] {
      assert a + b == b;
    } else {
      assert (a + b)[0] == a[0];
      assert (a + b)[1..] == a[1..] + b;
      ReplaceWithConcat(a[1..], b, c, rep);
    }
  }

  lemma ReplaceWithOne(x: char, c: char, rep: string)
    ensures ReplaceWith([x], c, rep) == if x == c then rep else [x]
  {
    assert [x][1..] == [];
  }

  /** Rust's `char::is_whitespace`: the Unicode White_Space property. */
  predicate IsWhitespace(c: char) {
    || ('\U{0009}' <= c <= '\U{000D}')
    || c == ' ' || c == '\U{0085}' || c == '\U{00A0}' || c == '\U{1680}'
    || ('\U{2000}' <= c <= '\U{200A}')
    || c == '\U{2028}' || c == '\U{2029}' || c == '\U{202F}' || c == '\U{205F}' || c == '\U{3000}'
  }

  /** Rust's `str::trim_end`: the longest prefix that does not end in whitespace. */
  function TrimEnd(s: string): (r: string)
    ensures r <= s
    ensures r == [] || !IsWhitespace(r[|r| - 1])
    ensures forall i :: |r| <= i < |s| ==> IsWhitespace(s[i])
  {
    if s != [] && IsWhitespace(s[|s| - 1]) then TrimEnd(s[..|s| - 1]) else s
  }

  /** Rust's `str::trim_start`. */
  function TrimStart(s: string): (r: string)
    ensures |r| <= |s| && r == s[|s| - |r|..]
    ensures r == [] || !IsWhitespace(r[0])
    ensures forall i :: 0 <= i < |s| - |r| ==> IsWhitespace(s[i])
  {
    if s != [] && IsWhitespace(s[0]) then TrimStart(s[1..]) else s
  }

  /** `r` is the slice of `s` from `k` on, with only whitespace before
      and after it. */
  predicate TrimmedAt(s: string, r: string, k: int) {
    && 0 <= k <= |s| - |r| && r == s[k..k + |r|]
    && (forall i :: 0 <= i < k ==> IsWhitespace(s[i]))
    && (forall i :: k + |r| <= i < |s| ==> IsWhitespace(s[i]))
  }

  /** A prefix `e` of `s` followed only by whitespace, and a suffix `r` of `e`
      preceded only by whitespace: `r` is a slice of `s` with only whitespace
      around it. */
  lemma TrimSlice(s: string, e: string, r: string)
    requires e <= s && forall i :: |e| <= i < |s| ==> IsWhitespace(s[i])
    requires |r| <= |e| && r == e[|e| - |r|..]
    requires forall i :: 0 <= i < |e| - |r| ==> IsWhitespace(e[i])
    ensures TrimmedAt(s, r, |e| - |r|)
  {
    var k := |e| - |r|;
    assert r == s[k..k + |r|] by {
      assert e == s[..|e|];
    }
    assert forall i :: 0 <= i < k ==> IsWhitespace(s[i]) by {
      forall i | 0 <= i < k ensures IsWhitespace(s[i]) {
        assert s[i] == e[i] by {
          assert e == s[..|e|];
        }
      }
    }
  }

  /** Rust's `str::trim`: `s` with its leading and trailing whitespace
      removed; neither end of the result is whitespace. */
  function Trim(s: string): (r: string)
    ensures r == [] || (!IsWhitespace(r[0]) && !IsWhitespace(r[|r| - 1]))
  {
    var e := TrimEnd(s);
    var r := TrimStart(e);
    assert r == [] || r[|r| - 1] == e[|e| - 1];
    r
  }

  /** What `Trim` removes is whitespace only: its result is a slice of `s`
      with only whitespace before and after it. */
  lemma TrimIsSlice(s: string)
    ensures exists k :: TrimmedAt(s, Trim(s), k)
  {
    var e := TrimEnd(s);
    TrimSlice(s, e, Trim(s));
    assert TrimmedAt(s, Trim(s), |e| - |Trim(s)|);
  }

  /** JavaScript's `s.split(c)` (also Rust's `s.split(c)` collected): at least one part. */
  function Split(s: string, c: char): (r: seq<string>)
    ensures |r| >= 1
    ensures forall i :: 0 <= i < |r| ==> c !in r[i]
  {
    if s == [] then [""]
    else
      var rest := Split(s[1..], c);
      if s[0] == c then [""] + rest else [[s[0]] + rest[0]] + rest[1..]
  }

  /** `parts.join(sep)`: the parts with `sep` between consecutive ones. */
  function Join(parts: seq<string>, sep: string): (r: string)
  {
    if |parts| == 0 then ""
    else if |parts| == 1 then parts[0]
    else parts[0] + sep + Join(parts[1..], sep)
  }

  /** Splitting and joining back on the same separator gives back the string. */
  lemma {:induction false} JoinSplit(s: string, c: char)
    ensures Join(Split(s, c), [c]) == s
  {
    if s != [] {
      var rest := Split(s[1..], c);
      JoinSplit(s[1..], c);
      if s[0] == c {
        assert Split(s, c) == [""] + rest;
        assert ([""] + rest)[1..] == rest;
      } else {
        var r := Split(s, c);
        assert r == [[s[0]] + rest[0]] + rest[1..];
        if |rest| == 1 {
          assert r == [[s[0]] + rest[0]];
        } else {
          assert r[1..] == rest[1..];
          assert Join(rest, [c]) == rest[0] + [c] + Join(rest[1..], [c]);
        }
      }
    }
  }

  /** A string free of the separator splits into itself alone. */
  lemma {:induction false} SplitNoSeparator(s: string, c: char)
    requires c !in s
    ensures Split(s, c) == [s]
  {
    if s != [] {
      SplitNoSeparator(s[1..], c);
      assert [s[0]] + s[1..] == s;
    }
  }

  /** Splitting distributes over one occurrence of the separator. */
  lemma {:induction false} SplitConcat(a: string, b: string, c: char)
    ensures Split(a + [c] + b, c) == Split(a, c) + Split(b, c)
  {
    if a == [] {
      assert a + [c] + b == [c] + b;
      assert ([c] + b)[1..] == b;
    } else {
      var s := a + [c] + b;
      assert s[0] == a[0];
      assert s[1..] == a[1..] + [c] + b;
      SplitConcat(a[1..], b, c);
      var left := Split(a[1..], c);
      var right := Split(b, c);
      if a[0] == c {
        AppendAssoc([""], left, right);
      } else {
        var rest := left + right;
        assert rest[0] == left[0];
        assert rest[1..] == left[1..] + right;
        AppendAssoc([[a[0]] + left[0]], left[1..], right);
      }
    }
  }

  /** Joining separator-free parts and splitting again gives back the parts. */
  lemma {:induction false} SplitJoin(parts: seq<string>, c: char)
    requires |parts| >= 1
    requires forall i :: 0 <= i < |parts| ==> c !in parts[i]
    ensures Split(Join(parts, [c]), c) == parts
  {
    SplitNoSeparator(parts[0], c);
    if |parts| > 1 {
      SplitJoin(parts[1..], c);
      SplitConcat(parts[0], Join(parts[1..], [c]), c);
      assert [parts[0]] + parts[1..] == parts;
    }
  }

  /** The decimal digits of `n`, as Rust's `Display` for unsigned integers writes them. */
  function NatToString(n: nat): (r: string)
    ensures |r| >= 1
    ensures forall i :: 0 <= i < |r| ==> '0' <= r[i] <= '9'
  {
    var digit := [(('0' as int) + n % 10) as char];
    if n < 10 then digit else NatToString(n / 10) + digit
  }

  /** Rust's `Display` for signed integers: a minus sign, then the digits. */
  function IntToString(n: int): string {
    if n < 0 then "-" + NatToString(-n) else NatToString(n)
  }

  /** Slicing a three-part concatenation back into its parts. */
  lemma ConcatSlices<T>(a: seq<T>, b: seq<T>, c: seq<T>, n: nat)
    requires n <= |b|
    ensures (a + b + c)[..|a|] == a
    ensures (a + b + c)[|a + b + c| - |c|..] == c
    ensures (a + b + c)[|a|..|a| + n] == b[..n]
  {
  }

  /** An index into the first part of a concatenation. */
  lemma ConcatAt<T>(a: seq<T>, b: seq<T>, i: nat)
    requires i < |a|
    ensures (a + b)[i] == a[i]
  {
  }

  lemma AppendAssoc<T>(a: seq<T>, b: seq<T>, c: seq<T>)
    ensures (a + b) + c == a + (b + c)
  {
  }

  /** The slice right after a prefix is the piece placed there. */
  lemma SliceAfter<T>(head: seq<T>, piece: seq<T>, rest: seq<T>)
    ensures |head| + |piece| <= |head + (piece + rest)|
    ensures (head + (piece + rest))[|head|..|head| + |piece|] == piece
  {
    assert head + (piece + rest) == (head + piece) + rest;
  }

  /** A slice right after a prefix differs from `piece` when the text placed
      there differs from `piece` at some position. */
  lemma SliceAfterDiffers<T>(head: seq<T>, piece: seq<T>, other: seq<T>, k: nat)
    requires k < |piece| <= |other| && piece[k] != other[k]
    ensures |head| + |piece| <= |head + other|
    ensures (head + other)[|head|..|head| + |piece|] != piece
  {
    var w := (head + other)[|head|..|head| + |piece|];
    assert w[k] == other[k];
  }


  /** `t` occurs in `s` at position `i`. */
  ghost predicate OccursAt(s: string, t: string, i: int) {
    0 <= i && i + |t| <= |s| && s[i..i + |t|] == t
  }

  /** Rust's `s.contains(t)`: some suffix of `s` starts with `t`. */
  function Contains(s: string, t: string): bool
  {
    if t <= s then true
    else if s == [] then false
    else Contains(s[1..], t)
  }

  /** When `t` is not a prefix of `s`, it occurs in `s` exactly when it occurs
      in the tail of `s`. */
  lemma OccursInTail(s: string, t: string)
    requires s != [] && !(t <= s)
    ensures (exists i :: OccursAt(s, t, i)) <==> (exists i :: OccursAt(s[1..], t, i))
  {
    if i :| OccursAt(s[1..], t, i) {
      assert s[1..][i..i + |t|] == s[i + 1..i + 1 + |t|];
      assert OccursAt(s, t, i + 1);
    }
    if i :| OccursAt(s, t, i) {
      if i > 0 {
        assert s[1..][i - 1..i - 1 + |t|] == s[i..i + |t|];
        assert OccursAt(s[1..], t, i - 1);
      }
    }
  }

  /** `Contains` finds exactly the positions where `t` occurs. */
  lemma {:induction false} ContainsIff(s: string, t: string)
    ensures Contains(s, t) <==> exists i :: OccursAt(s, t, i)
  {
    if t <= s {
      assert OccursAt(s, t, 0);
    } else if s != [] {
      ContainsIff(s[1..], t);
      OccursInTail(s, t);
    }
  }

  /** Lines written one after another, each followed by a newline (`writeln!`,
      or a `format!` template whose lines end in newlines). */
  function Render(lines: seq<string>): string {
    if lines == [] then "" else Render(lines[..|lines| - 1]) + lines[|lines| - 1] + "\n"
  }

  lemma {:induction false} RenderConcat(a: seq<string>, b: seq<string>)
    ensures Render(a + b) == Render(a) + Render(b)
  {
    if b == [] {
      assert a + b == a;
    } else {
      assert (a + b)[..|a + b| - 1] == a + b[..|b| - 1];
      RenderConcat(a, b[..|b| - 1]);
      var last := b[|b| - 1];
      AppendAssoc(Render(a), Render(b[..|b| - 1]), last);
      AppendAssoc(Render(a), Render(b[..|b| - 1]) + last, "\n");
      AppendAssoc(Render(a) + Render(b[..|b| - 1]), last, "\n");
    }
  }

  /** Writing a line adds exactly that line and one newline at the end. */
  lemma RenderSnoc(lines: seq<string>, line: string)
    ensures Render(lines + [line]) == Render(lines) + line + "\n"
  {
    assert (lines + [line])[..|lines|] == lines;
  }

  /** Rendered lines are separated by newlines: a document of lines without
      newlines holds exactly one newline per line. */
  lemma {:induction false} RenderLength(lines: seq<string>)
    ensures |Render(lines)| == |lines| + SumLengths(lines)
  {
    if lines != [] {
      RenderLength(lines[..|lines| - 1]);
    }
  }

  function SumLengths(lines: seq<string>): nat {
    if lines == [] then 0 else SumLengths(lines[..|lines| - 1]) + |lines[|lines| - 1]|
  }
}
