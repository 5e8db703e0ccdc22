/**
 * The chaincode's entry points as the code runs them: each one checks its
 * arguments and then talks to the host stub, which holds the world state and
 * updates it in place. Every method is proved to do what module Ledger says.
 */
module Chaincode {
  import opened Values
  import opened Strconv
  import Ledger

  /** The host's view of one transaction: the world state and the host's answers. */
  class Stub {
    var state: Ledger.Store
    const tx: Ledger.Tx

    constructor (state: Ledger.Store, tx: Ledger.Tx)
      ensures this.state == state && this.tx == tx
    {
      this.state := state;
      this.tx := tx;
    }

    /** The transaction's timestamp (the host's error result is never looked at). */
    method GetTxTimestamp() returns (ts: Timestamp)
      ensures ts == tx.timestamp
    {
      ts := tx.timestamp;
    }

    /** Read one key: the stored bytes (nothing for an absent key), or the host's failure. */
    method GetState(key: Key) returns (value: Option<Bytes>, err: Option<HostError>)
      ensures err == tx.getFault
      ensures value == if err.None? then Ledger.Lookup(state, key) else None
    {
      err := tx.getFault;
      if err.None? && key in state {
        value := Some(state[key]);
      } else {
        value := None;
      }
    }

    /** Write one key, overwriting it in full, unless the host refuses. */
    method PutState(key: Key, value: Bytes) returns (err: Option<HostError>)
      modifies this
      ensures err == tx.putFault
      ensures state == if err.None? then old(state)[key := value] else old(state)
    {
      err := tx.putFault;
      if err.None? {
        state := state[key := value];
      }
    }
  }

  class SimpleChaincode {
    /** The library encodings the entry points rely on. */
    const codec: Ledger.Codec

    constructor (codec: Ledger.Codec)
      ensures this.codec == codec
    {
      this.codec := codec;
    }

    /** Init only checks that it has two arguments. */
    method Init(stub: Stub, fn: string, args: seq<string>) returns (payload: Option<Bytes>, err: Option<Error>)
      ensures payload == None
      ensures err.None? <==> |args| == 2
      ensures err.Some? ==> err.value == Message(Ledger.InitArgCountText)
    {
      if |args| != 2 {
        return None, Some(Message(Ledger.InitArgCountText));
      }
      return None, None;
    }

    method Invoke(stub: Stub, fn: string, args: seq<string>) returns (payload: Option<Bytes>, err: Option<Error>)
      modifies stub
      ensures Ledger.Outcome(payload, err, stub.state) == Ledger.InvokeSpec(old(stub.state), fn, args, stub.tx, codec)
    {
      match fn
      case "init" =>
        payload, err := Init(stub, "init", args);
      case "registerDonater" =>
        payload, err := RegisterDonater(stub, args);
      case "registerProfiteReceiver" =>
        payload, err := RegisterProfiteReceiver(stub, args);
      case "donate" =>
        payload, err := Donate(stub, args);
      case "assign" =>
        payload, err := Assign(stub, args);
      case _ =>
        payload, err := None, Some(Message(Ledger.UnknownInvocationText + fn));
    }

    /** Query never modifies the stub: it has no modifies clause. */
    method Query(stub: Stub, fn: string, args: seq<string>) returns (payload: Option<Bytes>, err: Option<Error>)
      ensures Ledger.Response(payload, err) == Ledger.QuerySpec(stub.state, fn, args, stub.tx.getFault)
    {
      match fn
      case "trackproject" =>
        payload, err := TrackProject(stub, args);
      case "trackreceiver" =>
        payload, err := TrackReceiver(stub, args);
      case "trackdonator" =>
        payload, err := TrackDonator(stub, args);
      case _ =>
        payload, err := None, Some(Message(Ledger.UnknownQueryText + fn));
    }

    method RegisterDonater(stub: Stub, args: seq<string>) returns (payload: Option<Bytes>, err: Option<Error>)
      modifies stub
      ensures Ledger.Outcome(payload, err, stub.state) ==
              Ledger.Commit(old(stub.state), Ledger.Plan(Ledger.RegisterDonater, args, stub.tx, codec), stub.tx.putFault)
    {
      var donatorName: Key := "";  // declared, never assigned
      if |args| != 2 {
        return None, Some(Message(Ledger.RegisterArgCountText));
      }
      var ts := stub.GetTxTimestamp();
      var newDonator := Ledger.Donator(args[0], ts, 0, 0, []);
      var putErr := stub.PutState(donatorName, codec.encode(Ledger.DonatorEntity(newDonator)));
      if putErr.Some? {
        return None, Some(Host(putErr.value));
      }
      return None, None;
    }

    method RegisterProfiteReceiver(stub: Stub, args: seq<string>) returns (payload: Option<Bytes>, err: Option<Error>)
      modifies stub
      ensures Ledger.Outcome(payload, err, stub.state) ==
              Ledger.Commit(old(stub.state), Ledger.Plan(Ledger.RegisterProfiteReceiver, args, stub.tx, codec), stub.tx.putFault)
    {
      var receiverName: Key := "";  // declared, never assigned
      if |args| != 2 {
        return None, Some(Message(Ledger.RegisterArgCountText));
      }
      var ts := stub.GetTxTimestamp();
      var newReceiver := Ledger.Receiver(args[0], ts, 0, "");
      var putErr := stub.PutState(receiverName, codec.encode(Ledger.ReceiverEntity(newReceiver)));
      if putErr.Some? {
        return None, Some(Host(putErr.value));
      }
      return None, None;
    }

    method Donate(stub: Stub, args: seq<string>) returns (payload: Option<Bytes>, err: Option<Error>)
      modifies stub
      ensures Ledger.Outcome(payload, err, stub.state) ==
              Ledger.Commit(old(stub.state), Ledger.Plan(Ledger.Donate, args, stub.tx, codec), stub.tx.putFault)
    {
      if |args| != 3 {
        return None, Some(Message(Ledger.DonateArgCountText));
      }
      var money := Atoi(args[2]);
      if money.Failure? {
        return None, Some(Parse(money.error));
      }
      var ts := stub.GetTxTimestamp();
      var record := Ledger.DonatorRecord(args[0], money.value, 0, args[1], ts);
      var putErr := stub.PutState(record.donator, codec.encode(Ledger.RecordEntity(record)));
      if putErr.Some? {
        return None, Some(Host(putErr.value));
      }
      return None, None;
    }

    method Assign(stub: Stub, args: seq<string>) returns (payload: Option<Bytes>, err: Option<Error>)
      modifies stub
      ensures Ledger.Outcome(payload, err, stub.state) ==
              Ledger.Commit(old(stub.state), Ledger.Plan(Ledger.Assign, args, stub.tx, codec), stub.tx.putFault)
    {
      if |args| != 3 {
        return None, Some(Message(Ledger.AssignArgCountText));
      }
      var receiverName := args[1];
      var ts := stub.GetTxTimestamp();
      var putErr := stub.PutState(receiverName, codec.show(ts));
      if putErr.Some? {
        return None, Some(Host(putErr.value));
      }
      return None, None;
    }

    method TrackProject(stub: Stub, args: seq<string>) returns (payload: Option<Bytes>, err: Option<Error>)
      ensures Ledger.Response(payload, err) == Ledger.Track(Ledger.TrackProject, stub.state, args, stub.tx.getFault)
    {
      if |args| != 1 {
        return None, Some(Message(Ledger.TrackProjectArgCountText));
      }
      var project := args[0];
      var value, getErr := stub.GetState(project);
      if getErr.Some? {
        return None, Some(Message(Ledger.GetFailureText(project)));
      }
      return value, None;
    }

    method TrackReceiver(stub: Stub, args: seq<string>) returns (payload: Option<Bytes>, err: Option<Error>)
      ensures Ledger.Response(payload, err) == Ledger.Track(Ledger.TrackReceiver, stub.state, args, stub.tx.getFault)
    {
      var receiver: Key := "";  // declared, never assigned
      if |args| != 1 {
        return None, Some(Message(Ledger.TrackReceiverArgCountText));
      }
      var value, getErr := stub.GetState(receiver);
      if getErr.Some? {
        return None, Some(Message(Ledger.GetFailureText(receiver)));
      }
      return value, None;
    }

    method TrackDonator(stub: Stub, args: seq<string>) returns (payload: Option<Bytes>, err: Option<Error>)
      ensures Ledger.Response(payload, err) == Ledger.Track(Ledger.TrackDonator, stub.state, args, stub.tx.getFault)
    {
      if |args| != 1 {
        return None, Some(Message(Ledger.TrackDonatorArgCountText));
      }
      var donatorName := args[0];
      var value, getErr := stub.GetState(donatorName);
      if getErr.Some? {
        return None, Some(Message(Ledger.GetFailureText(donatorName)));
      }
      return value, None;
    }
  }
}
