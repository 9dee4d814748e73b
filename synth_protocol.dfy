/**
 * The synthesizer's line protocol (ptb/synth_protocol.py): the attribute
 * setter and getter, the `start`/`save` commands that carry the six
 * register words, the `do` length guard and the reply checks. The
 * transport is abstracted: a command handed to `_writeline` is appended
 * to `written`, and the text the synthesizer answers with is a parameter.
 */
module SynthProtocolModel {
  import opened Wrappers
  import opened Adf4350Config
  import opened Adf4350
  import opened HexFormat
  import opened Text

  /** The exceptions the protocol raises, by cause. */
  datatype ProtocolError =
    | NoSuchField(name: string)        // `set`: ValueError for a name that is no attribute
    | NoSuchAttribute(name: string)    // `get`: AttributeError from getattr
    | CommandTooLong(cmd: string)      // `do`: the length assertion
    | RegistersUnset                   // `reversed(self._regs)` before any set_frequency
    | TooFewRegisters(count: nat)      // `_fmt_regs`: IndexError from format
    | BadCommandLength(cmd: string)    // `start`/`save`: the length assertion
    | StartFailed(reply: string)       // `start`: ValueError on a reply other than "ok"
    | SaveFailed(reply: string)        // `save`: ValueError on a reply other than "ok"
    | StripOnCoroutine                 // `save` as written: AttributeError, see SaveAsWritten

  /** Line 14: every command sent is shorter than this. */
  const MaxCommandLength: nat := 64
  /** Lines 69 and 87: a five-character verb and six eight-digit words. */
  const CommandLength: nat := 5 + WordCount * WordDigits

  const StartVerb: string := "start"
  const SaveVerb: string := "save "

  /** A keyword argument of `set`: attribute name and value. */
  type Setting = (string, Value)

  /** The position of the first setting whose name is no attribute, or `|kwargs|`. */
  function FirstUnknown(kwargs: seq<Setting>): (n: nat)
    ensures n <= |kwargs|
    ensures forall j :: 0 <= j < n ==> Lookup(kwargs[j].0).Some?
    ensures n < |kwargs| ==> Lookup(kwargs[n].0).None?
  {
    if kwargs == [] || Lookup(kwargs[0].0).None? then 0
    else
      var n := FirstUnknown(kwargs[1..]);
      assert forall j :: 1 <= j <= n && j < |kwargs| ==> kwargs[1..][j - 1] == kwargs[j];
      1 + n
  }

  /** A known name at a position not past the first unknown one is before it. */
  lemma KnownBeforeFirstUnknown(kwargs: seq<Setting>, i: nat)
    requires i < |kwargs| && i <= FirstUnknown(kwargs) && Lookup(kwargs[i].0).Some?
    ensures i < FirstUnknown(kwargs)
  {
  }

  /** The attributes after `setattr` of each setting in order (names that are no attribute are passed over). */
  function Assign(a: Attributes, kwargs: seq<Setting>): Attributes
  {
    if kwargs == [] then a
    else
      var prev := Assign(a, kwargs[..|kwargs| - 1]);
      var last := kwargs[|kwargs| - 1];
      match Lookup(last.0)
      case Some(x) => prev[x := last.1]
      case None => prev
  }

  /** Lines 42-44, `get(key)`: the attribute's value, or AttributeError. */
  function Get(a: Attributes, key: string): Result<Value, ProtocolError>
  {
    match Lookup(key)
    case Some(x) => if x in a then Success(a[x]) else Failure(NoSuchAttribute(key))
    case None => Failure(NoSuchAttribute(key))
  }

  /** `get(k)` after `set` returns the value the last setting naming `k` stored. */
  lemma {:induction false} GetAfterSet(a: Attributes, kwargs: seq<Setting>, i: nat)
    requires i < |kwargs| && Lookup(kwargs[i].0).Some?
    requires forall j :: i < j < |kwargs| ==> Lookup(kwargs[j].0) != Lookup(kwargs[i].0)
    ensures Get(Assign(a, kwargs), kwargs[i].0) == Success(kwargs[i].1)
  {
    var x := Lookup(kwargs[i].0).value;
    var n := |kwargs| - 1;
    var m := Assign(a, kwargs);
    if i < n {
      assert forall j :: i < j < n ==> kwargs[..n][j] == kwargs[j];
      GetAfterSet(a, kwargs[..n], i);
      assert kwargs[..n][i] == kwargs[i];
      var prev := Assign(a, kwargs[..n]);
      GetIs(prev, kwargs[i].0, x);
      AssignOther(a, kwargs, n, x);
    } else {
      AssignLast(a, kwargs, n, x);
    }
    GetIs(m, kwargs[i].0, x);
  }

  /** One more setting naming attribute `x` stores its value there. */
  lemma AssignStep(a: Attributes, kwargs: seq<Setting>, n: nat, x: Attr)
    requires n < |kwargs| && Lookup(kwargs[n].0) == Some(x)
    ensures Assign(a, kwargs[..n + 1]) == Assign(a, kwargs[..n])[x := kwargs[n].1]
  {
    assert kwargs[..n + 1][..n] == kwargs[..n];
  }

  /** A last setting that names another attribute leaves attribute `x` as the earlier ones set it. */
  lemma AssignOther(a: Attributes, kwargs: seq<Setting>, n: nat, x: Attr)
    requires n + 1 == |kwargs| && Lookup(kwargs[n].0) != Some(x)
    ensures x in Assign(a, kwargs) <==> x in Assign(a, kwargs[..n])
    ensures x in Assign(a, kwargs) ==> Assign(a, kwargs)[x] == Assign(a, kwargs[..n])[x]
  {
  }

  /** A last setting that names attribute `x` stores its value there. */
  lemma AssignLast(a: Attributes, kwargs: seq<Setting>, n: nat, x: Attr)
    requires n + 1 == |kwargs| && Lookup(kwargs[n].0) == Some(x)
    ensures x in Assign(a, kwargs) && Assign(a, kwargs)[x] == kwargs[n].1
  {
  }

  /** `get` of a name whose attribute is present reads that attribute. */
  lemma GetIs(m: Attributes, key: string, x: Attr)
    requires Lookup(key) == Some(x)
    ensures Get(m, key) == if x in m then Success(m[x]) else Failure(NoSuchAttribute(key))
  {
  }

  /** `set` leaves every attribute that none of its settings names as it was. */
  lemma {:induction false} GetUntouched(a: Attributes, kwargs: seq<Setting>, key: string)
    requires Lookup(key).Some?
    requires forall j :: 0 <= j < |kwargs| ==> Lookup(kwargs[j].0) != Lookup(key)
    ensures Get(Assign(a, kwargs), key) == Get(a, key)
  {
    if kwargs != [] {
      var n := |kwargs| - 1;
      assert forall j :: 0 <= j < n ==> kwargs[..n][j] == kwargs[j];
      GetUntouched(a, kwargs[..n], key);
    }
  }

  /** `set` adds no attribute and removes none beyond those it names. */
  lemma {:induction false} AssignKeys(a: Attributes, kwargs: seq<Setting>)
    ensures a.Keys <= Assign(a, kwargs).Keys
    ensures forall x :: x in Assign(a, kwargs) ==> x in a || exists j :: 0 <= j < |kwargs| && Lookup(kwargs[j].0) == Some(x)
  {
    if kwargs != [] {
      var n := |kwargs| - 1;
      AssignKeys(a, kwargs[..n]);
      forall x | x in Assign(a, kwargs)
        ensures x in a || exists j :: 0 <= j < |kwargs| && Lookup(kwargs[j].0) == Some(x)
      {
        if x !in Assign(a, kwargs[..n]) {
          assert Lookup(kwargs[n].0) == Some(x);
        } else if x !in a {
          var j :| 0 <= j < n && Lookup(kwargs[..n][j].0) == Some(x);
          assert kwargs[j] == kwargs[..n][j];
        }
      }
    }
  }

  /** `reversed(regs)` as the integers `format` receives: register 5 first. */
  function Reversed(regs: seq<bv32>): (r: seq<int>)
    ensures |r| == |regs|
    ensures forall i :: 0 <= i < |regs| ==> r[i] == regs[|regs| - 1 - i] as int
  {
    seq(|regs|, i requires 0 <= i < |regs| => regs[|regs| - 1 - i] as int)
  }

  /**
   * Lines 66-69 and 84-87: the words (given, or else the computed registers
   * reversed) formatted after `verb`, and the length assertion on the result.
   */
  function Command(verb: string, regs: Option<seq<int>>, current: Option<seq<bv32>>): Result<string, ProtocolError>
  {
    if regs.None? && current.None? then
      Failure(RegistersUnset)
    else
      var words := if regs.Some? then regs.value else Reversed(current.value);
      match FormatRegs(words)
      case None => Failure(TooFewRegisters(|words|))
      case Some(payload) =>
        if |verb + payload| != CommandLength then Failure(BadCommandLength(verb + payload))
        else Success(verb + payload)
  }

  /**
   * With a five-character verb, a command is built exactly when there are
   * words, at least six of them and the first six each format to eight
   * characters; it is the verb and the 48-character payload, which `do` accepts.
   */
  lemma CommandBuilt(verb: string, words: seq<int>)
    requires |verb| == 5
    ensures Command(verb, Some(words), None).Success? <==>
      (|words| >= WordCount && forall i :: 0 <= i < WordCount ==> FitsWord(words[i]))
    ensures Command(verb, Some(words), None).Success? ==>
      && Command(verb, Some(words), None).value == verb + FormatRegs(words).value
      && |Command(verb, Some(words), None).value| < MaxCommandLength
  {
    FormatRegsLength(words);
  }

  /** The computed registers, reversed, format to 48 digits, word `i` reading back as register `5 - i`. */
  lemma DefaultPayload(current: seq<bv32>)
    requires |current| == WordCount
    ensures FormatRegs(Reversed(current)).Some? && |FormatRegs(Reversed(current)).value| == 48
    ensures forall i :: 0 <= i < WordCount ==>
      ParseHex(FormatRegs(Reversed(current)).value[8 * i..8 * i + 8]) == current[5 - i] as int
  {
    var words := Reversed(current);
    ReversedInRange(current);
    FormatRegsShape(words);
    var payload := FormatRegs(words).value;
    forall i | 0 <= i < WordCount
      ensures ParseHex(payload[8 * i..8 * i + 8]) == current[5 - i] as int
    {
      ReversedAt(current, i);
    }
  }

  lemma ReversedAt(current: seq<bv32>, i: nat)
    requires |current| == WordCount && i < WordCount
    ensures Reversed(current)[i] == current[5 - i] as int
  {
  }

  /** Register words are the non-negative integers below 2^32. */
  lemma ReversedInRange(regs: seq<bv32>)
    ensures forall i :: 0 <= i < |regs| ==> 0 <= Reversed(regs)[i] < 0x1_0000_0000
  {
  }

  /**
   * Lines 66-69: without explicit words, `start` sends the six computed
   * registers from register 5 down to register 0, each as its eight-digit
   * lowercase hex spelling.
   */
  lemma DefaultStartCommand(current: seq<bv32>)
    requires |current| == WordCount
    ensures Command(StartVerb, None, Some(current)).Success?
    ensures |Command(StartVerb, None, Some(current)).value| == CommandLength
    ensures Command(StartVerb, None, Some(current)).value[..5] == StartVerb
    ensures forall i :: 0 <= i < WordCount ==>
      ParseHex(Command(StartVerb, None, Some(current)).value[5 + 8 * i..13 + 8 * i]) == current[5 - i] as int
  {
    DefaultPayload(current);
    var payload := FormatRegs(Reversed(current)).value;
    DefaultCommand(StartVerb, current, payload);
    forall i | 0 <= i < WordCount
      ensures ParseHex((StartVerb + payload)[5 + 8 * i..13 + 8 * i]) == current[5 - i] as int
    {
      PrefixedChunk(StartVerb, payload, i);
    }
  }

  /** With a 48-character default payload, a five-character verb makes a command of it. */
  lemma DefaultCommand(verb: string, current: seq<bv32>, payload: string)
    requires |verb| == 5 && FormatRegs(Reversed(current)) == Some(payload) && |payload| == 48
    ensures Command(verb, None, Some(current)) == Success(verb + payload)
  {
  }

  /** Chunk `i` of the payload sits five characters further on in the command. */
  lemma PrefixedChunk(verb: string, payload: string, i: nat)
    requires |verb| == 5 && |payload| == 48 && i < WordCount
    ensures (verb + payload)[5 + 8 * i..13 + 8 * i] == payload[8 * i..8 * i + 8]
  {
  }

  /** Lines 71-73 and 89-91, as intended: the reply, stripped, is "ok". */
  predicate ReplyOk(reply: string)
  {
    Strip(reply) == "ok"
  }

  /** The strip of `s` is the slice between whitespace ends whose own ends are not whitespace. */
  lemma StripOfPadded(s: string, i: nat, j: nat)
    requires SpaceOutside(s, i, j) && i < j && !IsSpace(s[i]) && !IsSpace(s[j - 1])
    ensures Strip(s) == s[i..j]
  {
    SpaceEndIs(s, j);
    SpaceStartIs(s[..j], i);
  }

  lemma {:induction false} SpaceEndIs(s: string, j: nat)
    requires 0 < j <= |s| && !IsSpace(s[j - 1]) && forall k :: j <= k < |s| ==> IsSpace(s[k])
    ensures SpaceEnd(s) == j
    decreases |s|
  {
    if j < |s| {
      var t := s[..|s| - 1];
      assert forall k :: j <= k < |t| ==> t[k] == s[k];
      SpaceEndIs(t, j);
    }
  }

  lemma {:induction false} SpaceStartIs(s: string, i: nat)
    requires i < |s| && !IsSpace(s[i]) && forall k :: 0 <= k < i ==> IsSpace(s[k])
    ensures SpaceStart(s) == i
    decreases i
  {
    if i > 0 {
      assert forall k :: 0 <= k < i - 1 ==> s[1..][k] == s[k + 1];
      SpaceStartIs(s[1..], i - 1);
    }
  }

  /** `reply` holds "ok" at offset `i` and only whitespace around it. */
  predicate OkAt(reply: string, i: int)
  {
    SpaceOutside(reply, i, i + 2) && reply[i..i + 2] == "ok"
  }

  /** A reply is accepted exactly when it is "ok" with nothing but whitespace around it. */
  lemma ReplyOkIff(reply: string)
    ensures ReplyOk(reply) <==> exists i :: OkAt(reply, i)
  {
    if ReplyOk(reply) {
      ReplyOkPadded(reply);
    }
    if exists i :: OkAt(reply, i) {
      var i :| OkAt(reply, i);
      OkAtAccepted(reply, i);
    }
  }

  lemma ReplyOkPadded(reply: string)
    requires ReplyOk(reply)
    ensures OkAt(reply, SpaceStart(reply))
  {
    var i, j :| SpaceOutside(reply, i, j) && Strip(reply) == reply[i..j];
    assert j == i + 2 && reply[i] == 'o';
    SpaceStartIs(reply, i);
  }

  lemma OkAtAccepted(reply: string, i: int)
    requires OkAt(reply, i)
    ensures ReplyOk(reply)
  {
    assert reply[i] == 'o' && reply[i + 1] == 'k';
    StripOfPadded(reply, i, i + 2);
  }

  /** `SynthProtocol` over its `ADF4350` part: the configuration and `_regs` it inherits, and the lines sent. */
  class SynthProtocol {
    const synth: ADF4350
    /** The commands passed to `_writeline`, oldest first. */
    var written: seq<string>

    constructor ()
      ensures fresh(synth) && synth.attrs == Defaults && synth.regs == null
      ensures written == []
    {
      synth := new ADF4350();
      written := [];
    }

    /** The computed registers, absent before the first successful set_frequency. */
    function Current(): Option<seq<bv32>>
      reads synth, synth.regs
    {
      if synth.regs == null then None else Some(synth.regs[..])
    }

    /**
     * Lines 28-40: assigns the settings in order and stops with ValueError
     * at the first name that is no attribute; the settings before it stay
     * assigned and nothing else changes.
     */
    method Set(kwargs: seq<Setting>) returns (res: Outcome<ProtocolError>)
      modifies synth
      ensures synth.regs == old(synth.regs)
      ensures synth.attrs == Assign(old(synth.attrs), kwargs[..FirstUnknown(kwargs)])
      ensures FirstUnknown(kwargs) < |kwargs| ==> res == Fail(NoSuchField(kwargs[FirstUnknown(kwargs)].0))
      ensures FirstUnknown(kwargs) == |kwargs| ==> res == Pass
    {
      var i := 0;
      while i < |kwargs|
        invariant i <= FirstUnknown(kwargs)
        invariant synth.attrs == Assign(old(synth.attrs), kwargs[..i])
        invariant synth.regs == old(synth.regs)
      {
        var name := kwargs[i].0;
        var attr := Lookup(name);
        if attr.None? {
          return Fail(NoSuchField(name));
        }
        KnownBeforeFirstUnknown(kwargs, i);
        AssignStep(old(synth.attrs), kwargs, i, attr.value);
        synth.attrs := synth.attrs[attr.value := kwargs[i].1];
        i := i + 1;
      }
      assert kwargs[..i] == kwargs;
      return Pass;
    }

    /** Lines 13-16: a command of 64 characters or more fails the assertion and is not sent. */
    method Do(cmd: string) returns (res: Outcome<ProtocolError>)
      modifies this
      ensures |cmd| < MaxCommandLength ==> res == Pass && written == old(written) + [cmd]
      ensures |cmd| >= MaxCommandLength ==> res == Fail(CommandTooLong(cmd)) && written == old(written)
    {
      if |cmd| >= MaxCommandLength {
        return Fail(CommandTooLong(cmd));
      }
      written := written + [cmd];
      return Pass;
    }

    /**
     * Lines 58-73: builds and sends the `start` command, then accepts only
     * the reply "ok" (stripped); `reply` is the text read back.
     */
    method Start(regs: Option<seq<int>>, reply: string) returns (res: Outcome<ProtocolError>)
      modifies this
      ensures var cmd := Command(StartVerb, regs, old(Current()));
        && (cmd.Failure? ==> res == Fail(cmd.error) && written == old(written))
        && (cmd.Success? ==>
              && written == old(written) + [cmd.value]
              && res == if ReplyOk(reply) then Pass else Fail(StartFailed(Strip(reply))))
    {
      var cmd := Command(StartVerb, regs, Current());
      if cmd.Failure? {
        return Fail(cmd.error);
      }
      CommandFits(StartVerb, regs, Current());
      var sent := Do(cmd.value);
      var ret := Strip(reply);
      if ret != "ok" {
        return Fail(StartFailed(ret));
      }
      return Pass;
    }

    /**
     * Lines 75-91 as written: `self.read(4).strip()` looks up `strip` on
     * the coroutine before awaiting it, so once the command is sent the
     * call fails whatever the synthesizer replies.
     */
    method SaveAsWritten(regs: Option<seq<int>>, reply: string) returns (res: Outcome<ProtocolError>)
      modifies this
      ensures var cmd := Command(SaveVerb, regs, old(Current()));
        && (cmd.Failure? ==> res == Fail(cmd.error) && written == old(written))
        && (cmd.Success? ==> written == old(written) + [cmd.value] && res == Fail(StripOnCoroutine))
    {
      var cmd := Command(SaveVerb, regs, Current());
      if cmd.Failure? {
        return Fail(cmd.error);
      }
      CommandFits(SaveVerb, regs, Current());
      var sent := Do(cmd.value);
      return Fail(StripOnCoroutine);
    }

    /** Lines 75-91 with the reply awaited before stripping, as `start` does. */
    method Save(regs: Option<seq<int>>, reply: string) returns (res: Outcome<ProtocolError>)
      modifies this
      ensures var cmd := Command(SaveVerb, regs, old(Current()));
        && (cmd.Failure? ==> res == Fail(cmd.error) && written == old(written))
        && (cmd.Success? ==>
              && written == old(written) + [cmd.value]
              && res == if ReplyOk(reply) then Pass else Fail(SaveFailed(Strip(reply))))
    {
      var cmd := Command(SaveVerb, regs, Current());
      if cmd.Failure? {
        return Fail(cmd.error);
      }
      CommandFits(SaveVerb, regs, Current());
      var sent := Do(cmd.value);
      var ret := Strip(reply);
      if ret != "ok" {
        return Fail(SaveFailed(ret));
      }
      return Pass;
    }

    /** Lines 93-99: sends "locked" and reports a lock unless the answer contains "not". */
    method Locked(reply: string) returns (locked: bool)
      modifies this
      ensures written == old(written) + ["locked"]
      ensures locked <==> !HasSubstring(reply, "not")
    {
      var sent := Do("locked");
      locked := !HasSubstring(reply, "not");
    }
  }

  /** A command that is built is 53 characters long, which the `do` guard lets through. */
  lemma CommandFits(verb: string, regs: Option<seq<int>>, current: Option<seq<bv32>>)
    requires Command(verb, regs, current).Success?
    ensures |Command(verb, regs, current).value| == CommandLength < MaxCommandLength
  {
  }

  /**
   * The discrepancy in `save`: the reply "ok" is what the synthesizer sends
   * on success and what `start` accepts, yet `save` as written fails; the
   * corrected check accepts it and still rejects anything else.
   */
  lemma SaveAcceptsOk()
    ensures ReplyOk("ok\r\n") && ReplyOk("ok")
    ensures !ReplyOk("no")
  {
    StripOfPadded("ok\r\n", 0, 2);
    StripOfPadded("ok", 0, 2);
    StripOfPadded("no", 0, 2);
  }
}
