/**
 * Python's `'{:08x}'` integer format and the six-word payload that
 * `_fmt_regs` (ptb/synth_protocol.py:55-56) builds from it, with the
 * parser that reads such a payload back.
 */
module HexFormat {
  import opened Wrappers

  /** The lowercase hex digits, in value order. */
  const HexDigits: string := "0123456789abcdef"

  /** Width of one formatted word, and the number of words `_fmt_regs` formats. */
  const WordDigits: nat := 8
  const WordCount: nat := 6

  /** The digit of a value below 16. */
  function Digit(d: nat): (ch: char)
    requires d < 16
    ensures ch in HexDigits
  {
    HexDigits[d]
  }

  /** The value of a lowercase hex digit (0 for any other character). */
  function DigitValue(ch: char): (d: nat)
    ensures d < 16
  {
    if '0' <= ch <= '9' then (ch - '0') as nat
    else if 'a' <= ch <= 'f' then (ch - 'a') as nat + 10
    else 0
  }

  /** Reading a digit back gives its value. */
  lemma DigitValueOfDigit(d: nat)
    requires d < 16
    ensures DigitValue(Digit(d)) == d
  {
    assert HexDigits[d] == "0123456789abcdef"[d];
  }

  function Pow16(k: nat): (r: nat)
    ensures r >= 1
  {
    if k == 0 then 1 else 16 * Pow16(k - 1)
  }

  /** `format(n, 'x')`: the shortest lowercase hex spelling of `n`, most significant digit first. */
  function Hex(n: nat): (s: string)
    ensures 1 <= |s|
    ensures forall i :: 0 <= i < |s| ==> s[i] in HexDigits
    decreases n
  {
    if n < 16 then [Digit(n)] else Hex(n / 16) + [Digit(n % 16)]
  }

  function Zeros(k: nat): (s: string)
    ensures |s| == k
  {
    seq(k, _ => '0')
  }

  /** `s` right-aligned in a field of `w` characters filled with '0'; never truncated. */
  function PadLeft(s: string, w: nat): (r: string)
    ensures |r| == if |s| >= w then |s| else w
  {
    if |s| >= w then s else Zeros(w - |s|) + s
  }

  /**
   * `'{:08x}'.format(n)`: at least eight characters; a negative number
   * keeps its sign in front and zero-fills the seven places after it.
   */
  function Hex08(n: int): string
  {
    if n >= 0 then PadLeft(Hex(n), WordDigits) else "-" + PadLeft(Hex(-n), WordDigits - 1)
  }

  /** The value of a string of hex digits, most significant first (`int(s, 16)` on digits). */
  function ParseHex(s: string): nat
  {
    if s == [] then 0 else ParseHex(s[..|s| - 1]) * 16 + DigitValue(s[|s| - 1])
  }

  /** The spelling of `n` takes at most `k` digits exactly when `n < 16^k`. */
  lemma {:induction false} HexLength(n: nat, k: nat)
    requires k >= 1
    ensures |Hex(n)| <= k <==> n < Pow16(k)
    decreases n
  {
    if n >= 16 {
      if k == 1 {
        assert |Hex(n)| >= 2;
      } else {
        HexLength(n / 16, k - 1);
      }
    }
  }

  /** Reading the spelling of `n` gives `n`. */
  lemma {:induction false} ParseHexOfHex(n: nat)
    ensures ParseHex(Hex(n)) == n
    decreases n
  {
    if n < 16 {
      DigitValueOfDigit(n);
      assert Hex(n)[..0] == [];
    } else {
      var s := Hex(n);
      assert s[..|s| - 1] == Hex(n / 16);
      ParseHexOfHex(n / 16);
      DigitValueOfDigit(n % 16);
    }
  }

  /** Leading zeros do not change the value read. */
  lemma {:induction false} ParseHexLeadingZeros(k: nat, s: string)
    ensures ParseHex(Zeros(k) + s) == ParseHex(s)
    decreases |s|
  {
    if s == [] {
      assert Zeros(k) + s == Zeros(k);
      ParseHexZeros(k);
    } else {
      var t := Zeros(k) + s;
      assert t[..|t| - 1] == Zeros(k) + s[..|s| - 1];
      ParseHexLeadingZeros(k, s[..|s| - 1]);
    }
  }

  lemma {:induction false} ParseHexZeros(k: nat)
    ensures ParseHex(Zeros(k)) == 0
  {
    if k > 0 {
      assert Zeros(k)[..k - 1] == Zeros(k - 1);
      ParseHexZeros(k - 1);
    }
  }

  /** A non-negative number formatted with `{:08x}` reads back as itself. */
  lemma Hex08RoundTrip(n: int)
    requires n >= 0
    ensures ParseHex(Hex08(n)) == n
  {
    ParseHexOfHex(n);
    if |Hex(n)| < WordDigits {
      ParseHexLeadingZeros(WordDigits - |Hex(n)|, Hex(n));
    }
  }

  /** A non-negative number formats to lowercase hex digits only. */
  lemma Hex08Digits(n: int)
    requires n >= 0
    ensures forall i :: 0 <= i < |Hex08(n)| ==> Hex08(n)[i] in HexDigits
  {
    var s := Hex(n);
    if |s| < WordDigits {
      forall i | 0 <= i < |Hex08(n)|
        ensures Hex08(n)[i] in HexDigits
      {
        if i < WordDigits - |s| {
          assert Hex08(n)[i] == '0';
        } else {
          assert Hex08(n)[i] == s[i - (WordDigits - |s|)];
        }
      }
    }
  }

  /**
   * `{:08x}` gives exactly eight characters precisely for
   * -0x0fffffff..0xffffffff: one more digit, or a sign before eight, makes it longer.
   */
  lemma Hex08Width(n: int)
    ensures |Hex08(n)| >= WordDigits
    ensures |Hex08(n)| == WordDigits <==> -0x1000_0000 < n < 0x1_0000_0000
  {
    assert Pow16(8) == 0x1_0000_0000 && Pow16(7) == 0x1000_0000 by {
      assert Pow16(1) == 16;
    }
    if n >= 0 {
      HexLength(n, 8);
    } else {
      HexLength(-n, 7);
    }
  }

  /** The formatted words of `ws`, concatenated in order. */
  function Join(ws: seq<int>): string
  {
    if ws == [] then "" else Hex08(ws[0]) + Join(ws[1..])
  }

  /** A word that `{:08x}` renders with exactly eight characters. */
  predicate FitsWord(n: int)
  {
    -0x1000_0000 < n < 0x1_0000_0000
  }

  /** Words of eight characters each join into `8*|ws|` characters. */
  lemma {:induction false} JoinLength(ws: seq<int>)
    requires forall i :: 0 <= i < |ws| ==> FitsWord(ws[i])
    ensures |Join(ws)| == WordDigits * |ws|
  {
    if ws != [] {
      Hex08Width(ws[0]);
      JoinLength(ws[1..]);
    }
  }

  /** In a join of eight-character words, word `i` sits at offset `8*i`. */
  lemma {:induction false} JoinChunkAt(ws: seq<int>, i: int)
    requires forall k :: 0 <= k < |ws| ==> FitsWord(ws[k])
    requires 0 <= i < |ws|
    ensures |Join(ws)| == WordDigits * |ws|
    ensures Join(ws)[WordDigits * i..WordDigits * i + WordDigits] == Hex08(ws[i])
  {
    JoinLength(ws);
    Hex08Width(ws[0]);
    if i > 0 {
      JoinChunkAt(ws[1..], i - 1);
      assert ws[1..][i - 1] == ws[i];
      ChunkAfter(Hex08(ws[0]), Join(ws[1..]), i);
    }
  }

  /** Words of eight characters each join into `8*|ws|` characters, word `i` at offset `8*i`. */
  lemma JoinChunks(ws: seq<int>)
    requires forall i :: 0 <= i < |ws| ==> FitsWord(ws[i])
    ensures |Join(ws)| == WordDigits * |ws|
    ensures forall i :: 0 <= i < |ws| ==>
      Join(ws)[WordDigits * i..WordDigits * i + WordDigits] == Hex08(ws[i])
  {
    JoinLength(ws);
    forall i | 0 <= i < |ws|
      ensures Join(ws)[WordDigits * i..WordDigits * i + WordDigits] == Hex08(ws[i])
    {
      JoinChunkAt(ws, i);
    }
  }

  /** Behind an eight-character word, chunk `i` of the join is chunk `i - 1` of the rest. */
  lemma ChunkAfter(a: string, b: string, i: int)
    requires |a| == WordDigits && 1 <= i && WordDigits * i <= |b|
    ensures (a + b)[WordDigits * i..WordDigits * i + WordDigits]
      == b[WordDigits * (i - 1)..WordDigits * (i - 1) + WordDigits]
  {
  }

  /** A longer word makes the join longer than eight characters a word. */
  lemma {:induction false} JoinLonger(ws: seq<int>)
    requires exists i :: 0 <= i < |ws| && !FitsWord(ws[i])
    ensures |Join(ws)| > WordDigits * |ws|
  {
    JoinAtLeast(ws[1..]);
    Hex08Width(ws[0]);
    if FitsWord(ws[0]) {
      var i :| 0 <= i < |ws| && !FitsWord(ws[i]);
      assert ws[1..][i - 1] == ws[i];
      JoinLonger(ws[1..]);
    }
  }

  lemma {:induction false} JoinAtLeast(ws: seq<int>)
    ensures |Join(ws)| >= WordDigits * |ws|
  {
    if ws != [] {
      Hex08Width(ws[0]);
      JoinAtLeast(ws[1..]);
    }
  }

  /** Non-negative words join into hex digits only. */
  lemma {:induction false} JoinDigits(ws: seq<int>)
    requires forall i :: 0 <= i < |ws| ==> ws[i] >= 0
    ensures forall k :: 0 <= k < |Join(ws)| ==> Join(ws)[k] in HexDigits
  {
    if ws != [] {
      Hex08Digits(ws[0]);
      JoinDigits(ws[1..]);
    }
  }

  /**
   * `_fmt_regs(regs)`: the first six words formatted with `{:08x}` and
   * concatenated; `format` ignores further words and fails (`IndexError`,
   * here `None`) when there are fewer than six.
   */
  function FormatRegs(regs: seq<int>): Option<string>
  {
    if |regs| < WordCount then None else Some(Join(regs[..WordCount]))
  }

  /**
   * Six words below 2^32 give 48 lowercase hex digits: word `i` is the
   * eight-digit, zero-padded spelling at offset `8*i`, and reads back as itself.
   */
  lemma FormatRegsShape(regs: seq<int>)
    requires |regs| >= WordCount
    requires forall i :: 0 <= i < WordCount ==> 0 <= regs[i] < 0x1_0000_0000
    ensures FormatRegs(regs).Some? && |FormatRegs(regs).value| == 48
    ensures forall i :: 0 <= i < 48 ==> FormatRegs(regs).value[i] in HexDigits
    ensures forall i :: 0 <= i < WordCount ==>
      && FormatRegs(regs).value[8 * i..8 * i + 8] == Hex08(regs[i])
      && ParseHex(FormatRegs(regs).value[8 * i..8 * i + 8]) == regs[i]
  {
    var ws := regs[..WordCount];
    assert forall i :: 0 <= i < |ws| ==> ws[i] == regs[i];
    JoinChunks(ws);
    JoinDigits(ws);
    var s := Join(ws);
    forall i | 0 <= i < WordCount
      ensures s[8 * i..8 * i + 8] == Hex08(regs[i]) && ParseHex(s[8 * i..8 * i + 8]) == regs[i]
    {
      assert ws[i] == regs[i];
      Hex08RoundTrip(regs[i]);
    }
  }

  /**
   * The payload is 48 characters long exactly when there are at least six
   * words and each of the first six is rendered in eight characters.
   */
  lemma FormatRegsLength(regs: seq<int>)
    ensures (FormatRegs(regs).Some? && |FormatRegs(regs).value| == 48) <==>
      (|regs| >= WordCount && forall i :: 0 <= i < WordCount ==> FitsWord(regs[i]))
  {
    if |regs| >= WordCount {
      var ws := regs[..WordCount];
      if forall i :: 0 <= i < WordCount ==> FitsWord(regs[i]) {
        JoinChunks(ws);
      } else {
        var i :| 0 <= i < WordCount && !FitsWord(regs[i]);
        assert ws[i] == regs[i];
        JoinLonger(ws);
      }
    }
  }
}
