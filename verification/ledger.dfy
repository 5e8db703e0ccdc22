/**
 * The donation chaincode as a pure state machine over the host's key-value
 * world state. Every entry point first checks its argument count; an invoke
 * entry then decides on at most one write (a full overwrite of one key) and a
 * query entry on one read. This module is the specification the methods of
 * `Chaincode.SimpleChaincode` are proved against.
 */
module Ledger {
  import opened Values
  import opened Strconv

  /** The world state: each key holds the bytes last written under it. */
  type Store = map<Key, Bytes>

  /** The host's get: the stored bytes, or nothing for a key never written. */
  function Lookup(s: Store, k: Key): Option<Bytes> {
    if k in s then Some(s[k]) else None
  }

  // ---------------------------------------------------------------- entities

  datatype DonatorRecord = DonatorRecord(donator: string, money: int, index: int, project: string, time: Timestamp)

  datatype Donator = Donator(donator: string, time: Timestamp, money: int, count: int, record: seq<DonatorRecord>)

  datatype Receiver = Receiver(profiteReceiver: string, time: Timestamp, money: int, project: string)

  /** Declared by the chaincode; no entry point ever builds one. */
  datatype Project = Project(project: string, time: Timestamp)

  /** The structures the chaincode hands to binary.Write. */
  datatype Entity =
    | DonatorEntity(donator: Donator)
    | RecordEntity(record: DonatorRecord)
    | ReceiverEntity(receiver: Receiver)
    | ProjectEntity(project: Project)

  /**
   * The two library routines whose output the model leaves open:
   * `encode` is what binary.Write leaves in the buffer for an entity, and
   * `show` is the bytes of a timestamp's String() text.
   */
  datatype Codec = Codec(encode: Entity -> Bytes, show: Timestamp -> Bytes)

  /**
   * What the host decides for one transaction: its timestamp, and whether its
   * PutState and its GetState fail (and with which error).
   */
  datatype Tx = Tx(timestamp: Timestamp, putFault: Option<HostError>, getFault: Option<HostError>)

  // ---------------------------------------------------------------- routing

  datatype InvokeEntry = Init | RegisterDonater | RegisterProfiteReceiver | Donate | Assign

  datatype QueryEntry = TrackProject | TrackReceiver | TrackDonator

  /** The function name under which Invoke reaches an entry. */
  function InvokeName(e: InvokeEntry): string {
    match e
    case Init => "init"
    case RegisterDonater => "registerDonater"
    case RegisterProfiteReceiver => "registerProfiteReceiver"
    case Donate => "donate"
    case Assign => "assign"
  }

  /** The function name under which Query reaches an entry. */
  function QueryName(e: QueryEntry): string {
    match e
    case TrackProject => "trackproject"
    case TrackReceiver => "trackreceiver"
    case TrackDonator => "trackdonator"
  }

  /** Invoke's switch: the entry a function name selects, if any. */
  function RouteInvoke(fn: string): (r: Option<InvokeEntry>)
    ensures r.Some? ==> InvokeName(r.value) == fn
    ensures r.None? ==> forall e :: InvokeName(e) != fn
  {
    match fn
    case "init" => Some(Init)
    case "registerDonater" => Some(RegisterDonater)
    case "registerProfiteReceiver" => Some(RegisterProfiteReceiver)
    case "donate" => Some(Donate)
    case "assign" => Some(Assign)
    case _ => None
  }

  /** Query's switch: the entry a function name selects, if any. */
  function RouteQuery(fn: string): (r: Option<QueryEntry>)
    ensures r.Some? ==> QueryName(r.value) == fn
    ensures r.None? ==> forall e :: QueryName(e) != fn
  {
    match fn
    case "trackproject" => Some(TrackProject)
    case "trackreceiver" => Some(TrackReceiver)
    case "trackdonator" => Some(TrackDonator)
    case _ => None
  }

  // ---------------------------------------------------------------- messages

  const InitArgCountText := "Incorrect number of arguments. Expecting 2"
  const RegisterArgCountText := "Incorrect number of arguments. Expecting 2. name of the key and value to set"
  const DonateArgCountText := "Incorrect number of arguments. Expecting 3. name of the donator and money and project to set"
  /** assign checks for three arguments but its message says two. */
  const AssignArgCountText := "Incorrect number of arguments. Expecting 2. name of the key and value to set"
  const TrackProjectArgCountText := "Incorrect number of arguments. Expecting name of the project to query"
  const TrackReceiverArgCountText := "Incorrect number of arguments. Expecting name of the receiver to query"
  const TrackDonatorArgCountText := "Incorrect number of arguments. Expecting donator name to query"
  const UnknownInvocationText := "Received unknown function invocation: "
  const UnknownQueryText := "Received unknown function query: "

  /** The error a query reports when the host's GetState fails for `key`. */
  function GetFailureText(key: Key): string {
    "{\"Error\":\"Failed to get state for " + key + "\"}"
  }

  /** The argument count each invoke entry demands. */
  function Arity(e: InvokeEntry): nat {
    match e
    case Init => 2
    case RegisterDonater => 2
    case RegisterProfiteReceiver => 2
    case Donate => 3
    case Assign => 3
  }

  function ArgCountText(e: InvokeEntry): string {
    match e
    case Init => InitArgCountText
    case RegisterDonater => RegisterArgCountText
    case RegisterProfiteReceiver => RegisterArgCountText
    case Donate => DonateArgCountText
    case Assign => AssignArgCountText
  }

  function QueryArgCountText(e: QueryEntry): string {
    match e
    case TrackProject => TrackProjectArgCountText
    case TrackReceiver => TrackReceiverArgCountText
    case TrackDonator => TrackDonatorArgCountText
  }

  // ---------------------------------------------------------------- invoke

  /**
   * The key the register entries and trackreceiver use: the zero value of a
   * local name variable that is declared but never assigned.
   */
  const UnsetName: Key := ""

  function NewDonator(name: string, time: Timestamp): Donator {
    Donator(name, time, 0, 0, [])
  }

  function NewReceiver(name: string, time: Timestamp): Receiver {
    Receiver(name, time, 0, "")
  }

  /** A donation record as donate builds it: its index is never set. */
  function NewRecord(donator: string, project: string, money: int, time: Timestamp): DonatorRecord {
    DonatorRecord(donator, money, 0, project, time)
  }

  /** What an invoke entry decides before touching the store. */
  datatype Action = Reject(err: Error) | Done | Put(key: Key, value: Bytes)

  /**
   * The decision of one invoke entry. It never reads the store: the argument
   * count is checked first, and only donate can fail after that (on its amount).
   */
  function Plan(e: InvokeEntry, args: seq<string>, tx: Tx, codec: Codec): (a: Action)
    ensures |args| != Arity(e) ==> a == Reject(Message(ArgCountText(e)))
    ensures a.Reject? && |args| == Arity(e) ==> e == Donate && Atoi(args[2]).Failure?
    ensures a.Done? <==> e == Init && |args| == Arity(e)
    ensures a.Put? ==> TargetKey(InvokeName(e), args) == Some(a.key)
  {
    if |args| != Arity(e) then Reject(Message(ArgCountText(e)))
    else
      match e
      case Init => Done
      case RegisterDonater =>
        Put(UnsetName, codec.encode(DonatorEntity(NewDonator(args[0], tx.timestamp))))
      case RegisterProfiteReceiver =>
        Put(UnsetName, codec.encode(ReceiverEntity(NewReceiver(args[0], tx.timestamp))))
      case Donate => (
        match Atoi(args[2])
        case Failure(cause) => Reject(Parse(cause))
        case Success(money) =>
          Put(args[0], codec.encode(RecordEntity(NewRecord(args[0], args[1], money, tx.timestamp)))))
      case Assign => Put(args[1], codec.show(tx.timestamp))
  }

  /** The result of one invoke: payload, error and the world state afterwards. */
  datatype Outcome = Outcome(payload: Option<Bytes>, err: Option<Error>, state: Store)

  /** Carry out a decision with the host's single PutState. */
  function Commit(s: Store, a: Action, putFault: Option<HostError>): (r: Outcome)
    ensures r.payload == None
    ensures r.err.None? <==> a.Done? || (a.Put? && putFault.None?)
    ensures a.Reject? ==> r.err == Some(a.err)
    ensures a.Put? && putFault.Some? ==> r.err == Some(Host(putFault.value))
    ensures r.err.Some? || a.Done? ==> r.state == s
    ensures r.err.None? && a.Put? ==> r.state == s[a.key := a.value]
  {
    match a
    case Reject(e) => Outcome(None, Some(e), s)
    case Done => Outcome(None, None, s)
    case Put(k, v) =>
      if putFault.Some? then Outcome(None, Some(Host(putFault.value)), s)
      else Outcome(None, None, s[k := v])
  }

  /**
   * The one key an invoke call may write, read off the function name and the
   * arguments alone.
   */
  function TargetKey(fn: string, args: seq<string>): Option<Key> {
    if (fn == "registerDonater" || fn == "registerProfiteReceiver") && |args| == 2 then Some(UnsetName)
    else if fn == "donate" && |args| == 3 then Some(args[0])
    else if fn == "assign" && |args| == 3 then Some(args[1])
    else None
  }

  /** Invoke: route the function name, then run the entry's decision. */
  function InvokeSpec(s: Store, fn: string, args: seq<string>, tx: Tx, codec: Codec): (r: Outcome)
    ensures r.payload == None
    ensures r.err.Some? ==> r.state == s
    ensures RouteInvoke(fn).None? ==> r.err == Some(Message(UnknownInvocationText + fn))
    ensures forall k :: Some(k) != TargetKey(fn, args) ==> Lookup(r.state, k) == Lookup(s, k)
  {
    match RouteInvoke(fn)
    case None => Outcome(None, Some(Message(UnknownInvocationText + fn)), s)
    case Some(e) => Commit(s, Plan(e, args, tx, codec), tx.putFault)
  }

  // ---------------------------------------------------------------- query

  /** The key a query entry reads: trackreceiver ignores its argument. */
  function QueryKey(e: QueryEntry, name: string): Key {
    match e
    case TrackProject => name
    case TrackReceiver => UnsetName
    case TrackDonator => name
  }

  /** The result of one query: payload and error (a query has no way to write). */
  datatype Response = Response(payload: Option<Bytes>, err: Option<Error>)

  /** One track entry: check the count, then read one key. */
  function Track(e: QueryEntry, s: Store, args: seq<string>, getFault: Option<HostError>): (r: Response)
    ensures r.err.None? <==> |args| == 1 && getFault.None?
    ensures r.err.None? ==> r.payload == Lookup(s, QueryKey(e, args[0]))
    ensures r.err.Some? ==> r.payload == None
    ensures |args| != 1 ==> r.err == Some(Message(QueryArgCountText(e)))
    ensures |args| == 1 && getFault.Some? ==> r.err == Some(Message(GetFailureText(QueryKey(e, args[0]))))
  {
    if |args| != 1 then Response(None, Some(Message(QueryArgCountText(e))))
    else
      var key := QueryKey(e, args[0]);
      if getFault.Some? then Response(None, Some(Message(GetFailureText(key))))
      else Response(Lookup(s, key), None)
  }

  /** Query: route the function name, then run the track entry. */
  function QuerySpec(s: Store, fn: string, args: seq<string>, getFault: Option<HostError>): (r: Response)
    ensures RouteQuery(fn).None? ==> r == Response(None, Some(Message(UnknownQueryText + fn)))
    ensures r.err.None? ==> RouteQuery(fn).Some? && |args| == 1
    ensures r.err.None? ==> r.payload == Lookup(s, QueryKey(RouteQuery(fn).value, args[0]))
  {
    match RouteQuery(fn)
    case None => Response(None, Some(Message(UnknownQueryText + fn)))
    case Some(e) => Track(e, s, args, getFault)
  }

  // ---------------------------------------------------------------- traces

  /** One invoke transaction: the function called, its arguments and the host's decisions. */
  datatype Invocation = Invocation(fn: string, args: seq<string>, tx: Tx)

  /** The world state after a sequence of invoke transactions, in order. */
  function Run(s: Store, calls: seq<Invocation>, codec: Codec): Store
    decreases |calls|
  {
    if calls == [] then s
    else Run(InvokeSpec(s, calls[0].fn, calls[0].args, calls[0].tx, codec).state, calls[1..], codec)
  }

  /** Every key some call in the sequence may write. */
  function TargetKeys(calls: seq<Invocation>): set<Key>
    decreases |calls|
  {
    if calls == [] then {}
    else
      var here := match TargetKey(calls[0].fn, calls[0].args)
        case Some(k) => {k}
        case None => {};
      here + TargetKeys(calls[1..])
  }
}
