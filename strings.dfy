/** The string operations of JavaScript that the model uses, over
    `seq<char>`: `Array.prototype.join`, `String.prototype.split` on a single
    character, `toUpperCase`/`toLowerCase` (ASCII letters), `trim`, and the
    decimal rendering of a non-negative integer. */
module Strings {

  /** The total length of `parts`. */
  function TotalLength(parts: seq<string>): nat
  {
    if |parts| == 0 then 0 else |parts[0]| + TotalLength(parts[1..])
  }

  /** `parts.join(sep)`: empty for no parts; otherwise it starts with the
      first part, ends with the last, and holds every part and one
      separator between each two. */
  function Join(parts: seq<string>, sep: string): (r: string)
    ensures |parts| == 0 ==> r == ""
    ensures |parts| >= 1 ==> |r| == TotalLength(parts) + (|parts| - 1) * |sep|
    ensures |parts| >= 1 ==> r[..|parts[0]|] == parts[0]
  {
    if |parts| == 0 then ""
    else if |parts| == 1 then parts[0]
    else parts[0] + sep + Join(parts[1..], sep)
  }

  /** `s.split(sep)` for a one-character separator: the pieces between
      separators, including the empty ones; never an empty list. */
  function Split(s: string, sep: char): (r: seq<string>)
    ensures |r| >= 1
    decreases |s|
  {
    if |s| == 0 then [""]
    else
      var rest := Split(s[1..], sep);
      if s[0] == sep then [""] + rest
      else [[s[0]] + rest[0]] + rest[1..]
  }

  /** No line of `lines` contains the character `c`. */
  predicate Free(lines: seq<string>, c: char)
  {
    forall i :: 0 <= i < |lines| ==> c !in lines[i]
  }

  /** Splitting text that starts with a separator-free piece `a` glues `a`
      to the front of the first piece of the rest. */
  lemma {:induction false} SplitAfterPiece(a: string, t: string, sep: char)
    requires sep !in a
    ensures Split(a + t, sep) == [a + Split(t, sep)[0]] + Split(t, sep)[1..]
    decreases |a|
  {
    if |a| == 0 {
      assert a + t == t;
      assert a + Split(t, sep)[0] == Split(t, sep)[0];
      assert [Split(t, sep)[0]] + Split(t, sep)[1..] == Split(t, sep);
    } else {
      assert (a + t)[1..] == a[1..] + t;
      assert sep !in a[1..] by {
        forall k | 0 <= k < |a[1..]| ensures a[1..][k] != sep { assert a[1..][k] == a[k + 1]; }
      }
      SplitAfterPiece(a[1..], t, sep);
      assert [a[0]] + (a[1..] + Split(t, sep)[0]) == a + Split(t, sep)[0];
    }
  }

  /** Splitting on a separator undoes joining with it, provided no piece
      contains the separator. */
  lemma {:induction false} SplitJoin(lines: seq<string>, sep: char)
    requires |lines| >= 1 && Free(lines, sep)
    ensures Split(Join(lines, [sep]), sep) == lines
    decreases |lines|
  {
    if |lines| == 1 {
      SplitAfterPiece(lines[0], "", sep);
      assert lines[0] + "" == lines[0];
    } else {
      var rest := Join(lines[1..], [sep]);
      assert Join(lines, [sep]) == lines[0] + ([sep] + rest);
      SplitAfterPiece(lines[0], [sep] + rest, sep);
      assert ([sep] + rest)[1..] == rest;
      assert Split([sep] + rest, sep) == [""] + Split(rest, sep);
      assert Free(lines[1..], sep) by {
        forall i | 0 <= i < |lines[1..]| ensures sep !in lines[1..][i] { assert lines[1..][i] == lines[i + 1]; }
      }
      SplitJoin(lines[1..], sep);
      assert lines[0] + "" == lines[0];
      assert Split(lines[0] + ([sep] + rest), sep) == [lines[0]] + Split(rest, sep);
      assert lines == [lines[0]] + lines[1..];
    }
  }

  /** Joining a concatenation joins the two halves with one more separator. */
  lemma {:induction false} JoinAppend(a: seq<string>, b: seq<string>, sep: string)
    requires |a| >= 1 && |b| >= 1
    ensures Join(a + b, sep) == Join(a, sep) + sep + Join(b, sep)
    decreases |a|
  {
    assert (a + b)[0] == a[0];
    assert (a + b)[1..] == a[1..] + b;
    if |a| > 1 {
      JoinAppend(a[1..], b, sep);
    }
  }

  /** A join of two or more parts ends with a separator and the last part. */
  lemma JoinLast(parts: seq<string>, sep: string)
    requires |parts| >= 2
    ensures var r := Join(parts, sep);
      var last := parts[|parts| - 1];
      |r| >= |sep| + |last| && r[|r| - |sep| - |last|..] == sep + last
  {
    var init := parts[..|parts| - 1];
    var last := parts[|parts| - 1];
    var a := Join(init, sep);
    assert Join(parts, sep) == a + (sep + last) by {
      assert init + [last] == parts;
      JoinAppend(init, [last], sep);
    }
    assert (a + (sep + last))[|a|..] == sep + last;
  }

  /** All lines of all blocks, block after block. */
  function Flatten(blocks: seq<seq<string>>): seq<string>
  {
    if |blocks| == 0 then [] else blocks[0] + Flatten(blocks[1..])
  }

  /** Each block joined on its own: `blocks.map(b => b.join(sep))`. */
  function JoinEach(blocks: seq<seq<string>>, sep: string): (r: seq<string>)
    ensures |r| == |blocks|
  {
    seq(|blocks|, i requires 0 <= i < |blocks| => Join(blocks[i], sep))
  }

  /** Joining the joined blocks is joining all their lines at once. */
  lemma {:induction false} JoinFlatten(blocks: seq<seq<string>>, sep: string)
    requires |blocks| >= 1
    requires forall i :: 0 <= i < |blocks| ==> |blocks[i]| >= 1
    ensures |Flatten(blocks)| >= 1
    ensures Join(JoinEach(blocks, sep), sep) == Join(Flatten(blocks), sep)
    decreases |blocks|
  {
    if |blocks| > 1 {
      var rest := blocks[1..];
      assert JoinEach(blocks, sep)[1..] == JoinEach(rest, sep);
      JoinFlatten(rest, sep);
      JoinAppend(blocks[0], Flatten(rest), sep);
    } else {
      assert blocks[1..] == [];
      assert Flatten(blocks) == blocks[0] + [];
      assert blocks[0] + [] == blocks[0];
      assert JoinEach(blocks, sep) == [Join(blocks[0], sep)];
    }
  }

  /** Blocks free of `c` flatten to lines free of `c`. */
  lemma {:induction false} FlattenFree(blocks: seq<seq<string>>, c: char)
    requires forall i :: 0 <= i < |blocks| ==> Free(blocks[i], c)
    ensures Free(Flatten(blocks), c)
    decreases |blocks|
  {
    if |blocks| > 0 {
      FlattenFree(blocks[1..], c);
      var f := Flatten(blocks);
      forall k | 0 <= k < |f| ensures c !in f[k] {
        if k < |blocks[0]| {
          assert f[k] == blocks[0][k];
        } else {
          assert f[k] == Flatten(blocks[1..])[k - |blocks[0]|];
        }
      }
    }
  }

  /** Two pieces free of `c` concatenate to a piece free of `c`. */
  lemma NoBreakInConcat(a: string, b: string)
    requires '\n' !in a && '\n' !in b
    ensures '\n' !in a + b
  {
    forall k | 0 <= k < |a + b| ensures (a + b)[k] != '\n' {
      if k < |a| { assert (a + b)[k] == a[k]; } else { assert (a + b)[k] == b[k - |a|]; }
    }
  }

  // ---- ASCII case mapping ----

  predicate IsLowerAscii(c: char) { 'a' <= c <= 'z' }
  predicate IsUpperAscii(c: char) { 'A' <= c <= 'Z' }

  function UpperChar(c: char): char
  {
    if IsLowerAscii(c) then (c as int - 32) as char else c
  }

  function LowerChar(c: char): char
  {
    if IsUpperAscii(c) then (c as int + 32) as char else c
  }

  /** `s.toUpperCase()` on ASCII letters: same length, no lower-case ASCII
      letter left, every other character kept. */
  function Upper(s: string): (r: string)
    ensures |r| == |s|
    ensures forall i :: 0 <= i < |r| ==> !IsLowerAscii(r[i])
    ensures forall i :: 0 <= i < |s| && !IsLowerAscii(s[i]) ==> r[i] == s[i]
    ensures forall i :: 0 <= i < |s| && IsLowerAscii(s[i]) ==> r[i] as int == s[i] as int - 32
  {
    seq(|s|, i requires 0 <= i < |s| => UpperChar(s[i]))
  }

  /** `s.toLowerCase()` on ASCII letters. */
  function Lower(s: string): (r: string)
    ensures |r| == |s|
    ensures forall i :: 0 <= i < |r| ==> !IsUpperAscii(r[i])
    ensures forall i :: 0 <= i < |s| && !IsUpperAscii(s[i]) ==> r[i] == s[i]
    ensures forall i :: 0 <= i < |s| && IsUpperAscii(s[i]) ==> r[i] as int == s[i] as int + 32
  {
    seq(|s|, i requires 0 <= i < |s| => LowerChar(s[i]))
  }

  // ---- String.prototype.trim ----

  /** The ECMAScript WhiteSpace and LineTerminator code points. */
  predicate IsJsSpace(c: char)
  {
    c == '\t' || c == '\n' || c == '\U{000B}' || c == '\U{000C}' || c == '\r' || c == ' '
    || c == '\U{00A0}' || c == '\U{1680}' || ('\U{2000}' <= c <= '\U{200A}')
    || c == '\U{2028}' || c == '\U{2029}' || c == '\U{202F}' || c == '\U{205F}'
    || c == '\U{3000}' || c == '\U{FEFF}'
  }

  /** `s` with its leading white space removed: a suffix of `s` that starts
      with a non-space, and only spaces were dropped. */
  function TrimStart(s: string): (r: string)
    ensures |r| <= |s| && r == s[|s| - |r|..]
    ensures forall k :: 0 <= k < |s| - |r| ==> IsJsSpace(s[k])
    ensures r != [] ==> !IsJsSpace(r[0])
    decreases |s|
  {
    if |s| > 0 && IsJsSpace(s[0]) then TrimStart(s[1..]) else s
  }

  /** `s` with its trailing white space removed: a prefix of `s` that ends
      with a non-space, and only spaces were dropped. */
  function TrimEnd(s: string): (r: string)
    ensures |r| <= |s| && r == s[..|r|]
    ensures forall k :: |r| <= k < |s| ==> IsJsSpace(s[k])
    ensures r != [] ==> !IsJsSpace(r[|r| - 1])
    decreases |s|
  {
    if |s| > 0 && IsJsSpace(s[|s| - 1]) then TrimEnd(s[..|s| - 1]) else s
  }

  /** `s.trim()`: no white space at either end, and a string that has none
      there is returned unchanged. */
  function Trim(s: string): (r: string)
    ensures |r| <= |s|
    ensures r != [] ==> !IsJsSpace(r[0]) && !IsJsSpace(r[|r| - 1])
    ensures (s == [] || (!IsJsSpace(s[0]) && !IsJsSpace(s[|s| - 1]))) ==> r == s
  {
    TrimEnd(TrimStart(s))
  }

  /** Trimming removes white space at the two ends of `s` and nothing else:
      the result is a stretch of `s` with only white space before and after
      it. */
  lemma TrimKeepsMiddle(s: string)
    ensures var r := Trim(s);
      exists k :: 0 <= k <= |s| - |r| && r == s[k..][..|r|]
                  && (forall j :: 0 <= j < k ==> IsJsSpace(s[j]))
                  && (forall j :: k + |r| <= j < |s| ==> IsJsSpace(s[j]))
  {
    var t := TrimStart(s);
    var r := TrimEnd(t);
    var k := |s| - |t|;
    assert r == s[k..][..|r|] by {
      assert t == s[k..];
      assert r == t[..|r|];
    }
    forall j | k + |r| <= j < |s| ensures IsJsSpace(s[j]) {
      assert s[j] == t[j - k];
      assert IsJsSpace(t[j - k]);
    }
  }

  // ---- decimal rendering of a non-negative integer ----

  predicate IsDecimal(s: string)
  {
    forall i :: 0 <= i < |s| ==> '0' <= s[i] <= '9'
  }

  /** The value of a string of decimal digits. */
  function DecimalValue(s: string): nat
    requires IsDecimal(s)
  {
    if s == [] then 0 else DecimalValue(s[..|s| - 1]) * 10 + (s[|s| - 1] as int - '0' as int)
  }

  function DigitChar(d: nat): (c: char)
    requires d < 10
    ensures '0' <= c <= '9' && c as int - '0' as int == d
  {
    ('0' as int + d) as char
  }

  /** `${n}` for a non-negative integer: decimal digits, no leading zero,
      denoting `n`. */
  function NatToString(n: nat): (r: string)
    ensures |r| >= 1 && IsDecimal(r)
    ensures r[0] == '0' ==> n == 0
    ensures DecimalValue(r) == n
    decreases n
  {
    if n < 10 then [DigitChar(n)]
    else
      var r := NatToString(n / 10) + [DigitChar(n % 10)];
      assert r[..|r| - 1] == NatToString(n / 10);
      r
  }
}
