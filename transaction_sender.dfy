/** The multicall encoder of the test harness, `from_call_to_call_array`:
    a list of calls (target address, entry-point name, arguments) becomes a
    call array, one entry per call giving the target, the entry point's
    selector and where that call's arguments sit, and one calldata sequence
    holding every call's arguments back to back. */
module TransactionSender {
  import opened Wrappers

  /** One component of a call as the harness passes it: a felt, a name or
      a list of felts. */
  datatype Component = FeltPart(n: int) | NamePart(s: string) | FeltsPart(xs: seq<int>)

  /** A call as the harness passes it, a tuple that should hold exactly
      three components. */
  type RawCall = seq<Component>

  /** A well-formed call: target address, entry-point name, arguments. */
  datatype Call = Call(to: int, name: string, args: seq<int>)

  /** One entry of the call array. */
  datatype CallArrayEntry = CallArrayEntry(to: int, selector: int, dataOffset: nat, dataLen: nat)

  datatype CallError =
    | InvalidCallParameters  // a call without exactly three components
    | MalformedCall          // three components of the wrong kinds

  function ParseCall(raw: RawCall): (r: Result<Call, CallError>)
    ensures r.Success? <==>
      |raw| == 3 && raw[0].FeltPart? && raw[1].NamePart? && raw[2].FeltsPart?
    ensures r.Failure? && |raw| != 3 ==> r.error == InvalidCallParameters
    ensures r.Failure? && |raw| == 3 ==> r.error == MalformedCall
    ensures r.Success? ==>
      r.value == Call(raw[0].n, raw[1].s, raw[2].xs)
  {
    if |raw| != 3 then Failure(InvalidCallParameters)
    else if raw[0].FeltPart? && raw[1].NamePart? && raw[2].FeltsPart? then
      Success(Call(raw[0].n, raw[1].s, raw[2].xs))
    else Failure(MalformedCall)
  }

  /** The calls in order, or the error of the first call that is not well
      formed. */
  function ParseAll(raws: seq<RawCall>): Result<seq<Call>, CallError>
  {
    if raws == [] then Success([])
    else
      match ParseAll(raws[..|raws| - 1])
      case Failure(e) => Failure(e)
      case Success(cs) =>
        match ParseCall(raws[|raws| - 1])
        case Failure(e) => Failure(e)
        case Success(c) => Success(cs + [c])
  }

  // ---------------------------------------------------------------------
  // Reference definitions: prefix sums and concatenation
  // ---------------------------------------------------------------------

  /** The total length of the arguments of the first `i` calls. */
  function Offset(cs: seq<Call>, i: nat): nat
    requires i <= |cs|
  {
    if i == 0 then 0 else Offset(cs, i - 1) + |cs[i - 1].args|
  }

  /** Every call's arguments, concatenated in call order. */
  function Calldata(cs: seq<Call>): seq<int>
  {
    if cs == [] then [] else Calldata(cs[..|cs| - 1]) + cs[|cs| - 1].args
  }

  // ---------------------------------------------------------------------
  // from_call_to_call_array
  // ---------------------------------------------------------------------

  /** `from_call_to_call_array`. The selector computation is a foreign
      keccak-based function, passed in as `selectorOf`. Entry `i` records
      call `i`'s target and selector, the offset of its arguments (the
      calldata length reached before it) and their length. */
  method FromCallToCallArray(calls: seq<RawCall>, selectorOf: string -> int)
    returns (r: Result<(seq<CallArrayEntry>, seq<int>), CallError>)
    ensures ParseAll(calls).Failure? ==> r == Failure(ParseAll(calls).error)
    ensures ParseAll(calls).Success? ==> r.Success?
    ensures r.Success? ==>
      && |r.value.0| == |calls|
      && IsEncoding(ParseAll(calls).value, r.value.0, r.value.1, selectorOf)
  {
    var callArray: seq<CallArrayEntry> := [];
    var calldata: seq<int> := [];
    ghost var cs: seq<Call> := [];
    for k := 0 to |calls|
      invariant ParseAll(calls[..k]) == Success(cs)
      invariant |cs| == k
      invariant calldata == Calldata(cs)
      invariant EntriesMatch(callArray, cs, selectorOf)
    {
      assert calls[..k + 1][..k] == calls[..k];
      var call := calls[k];
      var parsed := ParseCall(call);
      if parsed.Failure? {
        FirstFailureWins(calls, k + 1);
        return Failure(parsed.error);
      }
      var c := parsed.value;
      var entry := CallArrayEntry(c.to, selectorOf(c.name), |calldata|, |c.args|);
      EntriesStep(callArray, cs, c, selectorOf);
      callArray := callArray + [entry];
      calldata := calldata + c.args;
      cs := cs + [c];
    }
    assert calls[..|calls|] == calls;
    EncodingOfEntries(callArray, cs, selectorOf);
    return Success((callArray, calldata));
  }

  /** The entry the encoding records for call `i` of `cs`. */
  function EntryFor(cs: seq<Call>, i: nat, selectorOf: string -> int): CallArrayEntry
    requires i < |cs|
  {
    CallArrayEntry(cs[i].to, selectorOf(cs[i].name), Offset(cs, i), |cs[i].args|)
  }

  /** Entry `i` of `callArray` is what the encoding records for call `i`. */
  ghost predicate EntriesMatch(callArray: seq<CallArrayEntry>, cs: seq<Call>, selectorOf: string -> int)
  {
    && |callArray| == |cs|
    && forall i :: 0 <= i < |cs| ==> callArray[i] == EntryFor(cs, i, selectorOf)
  }

  /** Recording one more call keeps the entries in step with the calls. */
  lemma EntriesStep(callArray: seq<CallArrayEntry>, cs: seq<Call>, c: Call, selectorOf: string -> int)
    requires EntriesMatch(callArray, cs, selectorOf)
    ensures EntriesMatch(callArray + [CallArrayEntry(c.to, selectorOf(c.name), |Calldata(cs)|, |c.args|)],
                         cs + [c], selectorOf)
  {
    var entries := callArray + [CallArrayEntry(c.to, selectorOf(c.name), |Calldata(cs)|, |c.args|)];
    forall i | 0 <= i < |cs| + 1
      ensures entries[i] == EntryFor(cs + [c], i, selectorOf)
    {
      if i < |cs| {
        EarlierEntryKept(cs, c, i, selectorOf);
      } else {
        LastEntry(cs, c, selectorOf);
      }
    }
  }

  /** Appending a call leaves the entries of the earlier calls as they were. */
  lemma EarlierEntryKept(cs: seq<Call>, c: Call, i: nat, selectorOf: string -> int)
    requires i < |cs|
    ensures EntryFor(cs + [c], i, selectorOf) == EntryFor(cs, i, selectorOf)
  {
    OffsetOfPrefixAt(cs, c, i);
  }

  /** The entry of an appended call starts where the earlier calldata ends. */
  lemma LastEntry(cs: seq<Call>, c: Call, selectorOf: string -> int)
    ensures EntryFor(cs + [c], |cs|, selectorOf)
         == CallArrayEntry(c.to, selectorOf(c.name), |Calldata(cs)|, |c.args|)
  {
    CalldataLength(cs);
    OffsetOfPrefixAt(cs, c, |cs|);
  }

  /** What the encoder promises about its output for the calls `cs`: one
      entry per call, in order, with that call's target and selector, the
      offset of its arguments (the total length of the arguments before
      it) and their length; the calldata is every call's arguments back to
      back, so slicing it at an entry gives back that call's arguments. */
  ghost predicate IsEncoding(cs: seq<Call>, callArray: seq<CallArrayEntry>, calldata: seq<int>,
                             selectorOf: string -> int)
  {
    && |callArray| == |cs|
    && calldata == Calldata(cs)
    && |calldata| == Offset(cs, |cs|)
    && forall i :: 0 <= i < |cs| ==>
         && callArray[i].to == cs[i].to
         && callArray[i].selector == selectorOf(cs[i].name)
         && callArray[i].dataOffset == Offset(cs, i)
         && callArray[i].dataLen == |cs[i].args|
         && callArray[i].dataOffset + callArray[i].dataLen <= |calldata|
         && calldata[callArray[i].dataOffset .. callArray[i].dataOffset + callArray[i].dataLen] == cs[i].args
  }

  /** Entries recorded in step with the calls, together with the
      concatenated arguments, are an encoding of those calls. */
  lemma EncodingOfEntries(callArray: seq<CallArrayEntry>, cs: seq<Call>, selectorOf: string -> int)
    requires EntriesMatch(callArray, cs, selectorOf)
    ensures IsEncoding(cs, callArray, Calldata(cs), selectorOf)
  {
    CalldataLength(cs);
    forall i | 0 <= i < |cs|
      ensures Offset(cs, i) + |cs[i].args| <= |Calldata(cs)|
      ensures Calldata(cs)[Offset(cs, i) .. Offset(cs, i) + |cs[i].args|] == cs[i].args
    {
      ArgsSlice(cs, i);
    }
  }

  // ---------------------------------------------------------------------
  // Properties of the encoding
  // ---------------------------------------------------------------------

  /** An error among the first `k` calls is the error of the whole list. */
  lemma {:induction false} FirstFailureWins(raws: seq<RawCall>, k: nat)
    requires k <= |raws|
    requires ParseAll(raws[..k]).Failure?
    ensures ParseAll(raws) == ParseAll(raws[..k])
    decreases |raws| - k
  {
    if k < |raws| {
      assert raws[..k + 1][..k] == raws[..k];
      FirstFailureWins(raws, k + 1);
    } else {
      assert raws[..k] == raws;
    }
  }

  /** The calldata is as long as all the argument lists together. */
  lemma {:induction false} CalldataLength(cs: seq<Call>)
    ensures |Calldata(cs)| == Offset(cs, |cs|)
  {
    if cs != [] {
      var init := cs[..|cs| - 1];
      CalldataLength(init);
      OffsetOfPrefix(init, cs[|cs| - 1]);
      assert init + [cs[|cs| - 1]] == cs;
    }
  }

  /** Appending a call does not move the offsets of the calls before it. */
  lemma {:induction false} OffsetOfPrefix(cs: seq<Call>, c: Call)
    ensures forall i :: 0 <= i <= |cs| ==> Offset(cs + [c], i) == Offset(cs, i)
  {
    forall i | 0 <= i <= |cs|
      ensures Offset(cs + [c], i) == Offset(cs, i)
    {
      OffsetOfPrefixAt(cs, c, i);
    }
  }

  lemma {:induction false} OffsetOfPrefixAt(cs: seq<Call>, c: Call, i: nat)
    requires i <= |cs|
    ensures Offset(cs + [c], i) == Offset(cs, i)
  {
    if i > 0 {
      OffsetOfPrefixAt(cs, c, i - 1);
      assert (cs + [c])[i - 1] == cs[i - 1];
    }
  }

  /** The calldata of a list of calls starts with the calldata of any
      prefix of it. */
  lemma {:induction false} CalldataPrefix(cs: seq<Call>, k: nat)
    requires k <= |cs|
    ensures |Calldata(cs[..k])| <= |Calldata(cs)|
    ensures Calldata(cs)[..|Calldata(cs[..k])|] == Calldata(cs[..k])
    decreases |cs| - k
  {
    if k == |cs| {
      assert cs[..k] == cs;
    } else {
      CalldataPrefix(cs, k + 1);
      assert cs[..k + 1][..k] == cs[..k];
    }
  }

  /** Slicing the calldata at entry `i`'s offset and length gives back call
      `i`'s arguments exactly. */
  lemma ArgsSlice(cs: seq<Call>, i: nat)
    requires i < |cs|
    ensures Offset(cs, i) + |cs[i].args| <= |Calldata(cs)|
    ensures Calldata(cs)[Offset(cs, i) .. Offset(cs, i) + |cs[i].args|] == cs[i].args
  {
    CalldataOfPrefix(cs, i);
    CalldataLength(cs[..i]);
    PrefixOffset(cs, i);
    CalldataPrefix(cs, i + 1);
    SliceAfterPrefix(Calldata(cs), Calldata(cs[..i]), cs[i].args);
  }

  lemma SliceAfterPrefix<T>(whole: seq<T>, q: seq<T>, a: seq<T>)
    requires |q + a| <= |whole| && whole[..|q + a|] == q + a
    ensures |q| + |a| <= |whole| && whole[|q| .. |q| + |a|] == a
  {
    assert whole[|q| .. |q| + |a|] == (q + a)[|q| ..];
  }

  lemma CalldataOfPrefix(cs: seq<Call>, i: nat)
    requires i < |cs|
    ensures Calldata(cs[..i + 1]) == Calldata(cs[..i]) + cs[i].args
  {
    assert cs[..i + 1][..i] == cs[..i];
  }

  /** Offsets depend only on the calls before them. */
  lemma {:induction false} PrefixOffset(cs: seq<Call>, i: nat)
    requires i <= |cs|
    ensures Offset(cs[..i], i) == Offset(cs, i)
  {
    if i > 0 {
      PrefixOffset(cs, i - 1);
      OffsetOfPrefixAt(cs[..i - 1], cs[i - 1], i - 1);
      assert cs[..i - 1] + [cs[i - 1]] == cs[..i];
    }
  }
}
