/**
 * What the chaincode does, entry by entry and over sequences of calls, stated
 * about the specification in module Ledger.
 */
module LedgerProperties {
  import opened Values
  import opened Strconv
  import opened Ledger

  // ---------------------------------------------------------------- one call

  /** A known entry called with the wrong number of arguments fails and writes nothing. */
  lemma WrongArgCountRejected(s: Store, fn: string, args: seq<string>, tx: Tx, codec: Codec)
    requires RouteInvoke(fn).Some? && |args| != Arity(RouteInvoke(fn).value)
    ensures InvokeSpec(s, fn, args, tx, codec) ==
              Outcome(None, Some(Message(ArgCountText(RouteInvoke(fn).value))), s)
  {
  }

  /** An unparsable amount makes donate return Atoi's error before any write. */
  lemma DonateParseFailure(s: Store, args: seq<string>, tx: Tx, codec: Codec)
    requires |args| == 3 && Atoi(args[2]).Failure?
    ensures InvokeSpec(s, "donate", args, tx, codec) == Outcome(None, Some(Parse(Atoi(args[2]).error)), s)
  {
  }

  /**
   * A successful donate overwrites the donator's own key, and only it, with the
   * encoding of one fresh record: donator args[0], project args[1], the parsed
   * amount and the transaction time.
   */
  lemma DonateSuccess(s: Store, args: seq<string>, tx: Tx, codec: Codec)
    requires |args| == 3 && Atoi(args[2]).Success? && tx.putFault.None?
    ensures var r := InvokeSpec(s, "donate", args, tx, codec);
      r.err == None &&
      r.state == s[args[0] := codec.encode(RecordEntity(DonatorRecord(args[0], Atoi(args[2]).value, 0, args[1], tx.timestamp)))]
  {
  }

  /** donate never reads what was stored before: the value it leaves does not depend on it. */
  lemma DonateIgnoresPrior(s: Store, t: Store, args: seq<string>, tx: Tx, codec: Codec)
    requires |args| == 3 && Atoi(args[2]).Success? && tx.putFault.None?
    ensures Lookup(InvokeSpec(s, "donate", args, tx, codec).state, args[0]) ==
            Lookup(InvokeSpec(t, "donate", args, tx, codec).state, args[0])
  {
  }

  /** A successful assign writes the timestamp text under the receiver's key, and nothing else. */
  lemma AssignSuccess(s: Store, args: seq<string>, tx: Tx, codec: Codec)
    requires |args| == 3 && tx.putFault.None?
    ensures var r := InvokeSpec(s, "assign", args, tx, codec);
      r.err == None && r.state == s[args[1] := codec.show(tx.timestamp)]
  {
  }

  /** assign never parses its amount: any third argument gives the same outcome. */
  lemma AssignIgnoresAmount(s: Store, args: seq<string>, amount: string, tx: Tx, codec: Codec)
    requires |args| == 3
    ensures InvokeSpec(s, "assign", args, tx, codec) == InvokeSpec(s, "assign", args[2 := amount], tx, codec)
  {
  }

  /** registerDonater writes a zeroed donator under the empty key, not under its name. */
  lemma RegisterDonaterSuccess(s: Store, args: seq<string>, tx: Tx, codec: Codec)
    requires |args| == 2 && tx.putFault.None?
    ensures var r := InvokeSpec(s, "registerDonater", args, tx, codec);
      r.err == None &&
      r.state == s["" := codec.encode(DonatorEntity(Donator(args[0], tx.timestamp, 0, 0, [])))]
  {
  }

  /** registerProfiteReceiver writes a zero-balance receiver under the empty key, not under its name. */
  lemma RegisterProfiteReceiverSuccess(s: Store, args: seq<string>, tx: Tx, codec: Codec)
    requires |args| == 2 && tx.putFault.None?
    ensures var r := InvokeSpec(s, "registerProfiteReceiver", args, tx, codec);
      r.err == None &&
      r.state == s["" := codec.encode(ReceiverEntity(Receiver(args[0], tx.timestamp, 0, "")))]
  {
  }

  /** When the host's PutState fails, its error is the entry's error and the store is unchanged. */
  lemma PutFailureReported(s: Store, fn: string, args: seq<string>, tx: Tx, codec: Codec)
    requires RouteInvoke(fn).Some? && Plan(RouteInvoke(fn).value, args, tx, codec).Put?
    requires tx.putFault.Some?
    ensures InvokeSpec(s, fn, args, tx, codec) == Outcome(None, Some(Host(tx.putFault.value)), s)
  {
  }

  /** trackproject and trackdonator return what is stored under their argument. */
  lemma TrackByName(s: Store, name: string, getFault: Option<HostError>)
    requires getFault.None?
    ensures QuerySpec(s, "trackproject", [name], getFault) == Response(Lookup(s, name), None)
    ensures QuerySpec(s, "trackdonator", [name], getFault) == Response(Lookup(s, name), None)
  {
  }

  /** trackreceiver reads the empty key whatever name it is given. */
  lemma TrackReceiverIgnoresName(s: Store, a: string, b: string, getFault: Option<HostError>)
    ensures QuerySpec(s, "trackreceiver", [a], getFault) == QuerySpec(s, "trackreceiver", [b], getFault)
    ensures getFault.None? ==> QuerySpec(s, "trackreceiver", [a], getFault) == Response(Lookup(s, ""), None)
  {
  }

  // ---------------------------------------------------------------- sequences of calls

  /** Over any sequence of invokes, a key that no call targets keeps its value. */
  lemma {:induction false} RunFrame(s: Store, calls: seq<Invocation>, codec: Codec)
    ensures forall k :: k !in TargetKeys(calls) ==> Lookup(Run(s, calls, codec), k) == Lookup(s, k)
    decreases |calls|
  {
    if calls != [] {
      var c := calls[0];
      var next := InvokeSpec(s, c.fn, c.args, c.tx, codec).state;
      RunFrame(next, calls[1..], codec);
    }
  }

  predicate IsRegistration(c: Invocation) {
    c.fn == "registerDonater" || c.fn == "registerProfiteReceiver"
  }

  /** Registrations target nothing but the empty key. */
  lemma {:induction false} RegistrationTargets(calls: seq<Invocation>)
    requires forall i :: 0 <= i < |calls| ==> IsRegistration(calls[i])
    ensures TargetKeys(calls) <= {""}
    decreases |calls|
  {
    if calls != [] {
      RegistrationTargets(calls[1..]);
    }
  }

  /**
   * However many donators and receivers are registered, nothing becomes
   * findable under a non-empty name: trackdonator and trackproject answer
   * exactly as they did before.
   */
  lemma RegisteredNamesNotFound(s: Store, calls: seq<Invocation>, codec: Codec, name: string)
    requires forall i :: 0 <= i < |calls| ==> IsRegistration(calls[i])
    requires name != ""
    ensures Lookup(Run(s, calls, codec), name) == Lookup(s, name)
    ensures QuerySpec(Run(s, calls, codec), "trackdonator", [name], None) == QuerySpec(s, "trackdonator", [name], None)
  {
    RegistrationTargets(calls);
    RunFrame(s, calls, codec);
  }

  /**
   * Donations do not accumulate: after registering "alice" and two donations of
   * 50 and 30 to "roofProject", trackdonator("alice") gives only the encoding of
   * the last record (amount 30, index 0), and the empty key holds the donator.
   */
  lemma DonationsDoNotAccumulate(s: Store, tx1: Tx, tx2: Tx, tx3: Tx, codec: Codec)
    requires tx1.putFault.None? && tx2.putFault.None? && tx3.putFault.None?
    ensures var calls := [
        Invocation("registerDonater", ["alice", ""], tx1),
        Invocation("donate", ["alice", "roofProject", "50"], tx2),
        Invocation("donate", ["alice", "roofProject", "30"], tx3)];
      var after := Run(s, calls, codec);
      QuerySpec(after, "trackdonator", ["alice"], None) ==
        Response(Some(codec.encode(RecordEntity(DonatorRecord("alice", 30, 0, "roofProject", tx3.timestamp)))), None) &&
      Lookup(after, "") == Some(codec.encode(DonatorEntity(Donator("alice", tx1.timestamp, 0, 0, []))))
  {
    assert Atoi("50") == Success(50) by { AtoiItoa(50); assert Itoa(50) == "50"; }
    assert Atoi("30") == Success(30) by { AtoiItoa(30); assert Itoa(30) == "30"; }
    var calls := [
        Invocation("registerDonater", ["alice", ""], tx1),
        Invocation("donate", ["alice", "roofProject", "50"], tx2),
        Invocation("donate", ["alice", "roofProject", "30"], tx3)];
    var s1 := InvokeSpec(s, calls[0].fn, calls[0].args, tx1, codec).state;
    var s2 := InvokeSpec(s1, calls[1].fn, calls[1].args, tx2, codec).state;
    var s3 := InvokeSpec(s2, calls[2].fn, calls[2].args, tx3, codec).state;
    assert Run(s, calls, codec) == Run(s1, calls[1..], codec);
    assert Run(s1, calls[1..], codec) == Run(s2, calls[2..], codec) by { assert calls[1..][1..] == calls[2..]; }
    assert Run(s2, calls[2..], codec) == Run(s3, [], codec) by { assert calls[2..][1..] == []; }
  }
}
