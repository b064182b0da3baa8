/** An abstract CloudWatch Logs account: the remote store the shipper talks to.
    Only the calls the shipper makes are modelled (describe log groups by
    prefix, create a log group, describe log streams by prefix, create a log
    stream, put log events), with the behaviour the shipper relies on:
    "already exists" and "not found" are distinguishable failures, and a put
    must carry the stream's current upload sequence token. Every request made
    is recorded in `calls`, every accepted put in `sent`. */
module LogService {
  import opened KotlinText

  /** An upload sequence token. */
  type Token = nat

  datatype LogStream = LogStream(logStreamName: string, uploadSequenceToken: Option<Token>)

  datatype InputLogEvent = InputLogEvent(message: string, timestamp: int)

  datatype PutRequest = PutRequest(
    logGroupName: string,
    logStreamName: string,
    sequenceToken: Option<Token>,
    logEvents: seq<InputLogEvent>)

  /** The store's operations, to say which requests fail. */
  datatype Api = DescribeGroups | CreateGroup | DescribeStreams | CreateStream | PutEvents

  /** A request as it reached the store. */
  datatype Call =
    | DescribeGroupsCall(groupPrefix: string)
    | CreateGroupCall(group: string)
    | DescribeStreamsCall(streamGroup: string, streamPrefix: string)
    | CreateStreamCall(targetGroup: string, stream: string)
    | PutEventsCall(request: PutRequest)

  /** The exceptions the store can answer with. `ServiceError` stands for
      every failure that is not about the resources themselves (network,
      credentials, throttling). */
  datatype Failure = ResourceAlreadyExists | ResourceNotFound | InvalidSequenceToken | ServiceError

  datatype Result<+T> = Ok(value: T) | Err(failure: Failure)

  /** The group names in `names` that start with `prefix`, in order. */
  function GroupsByPrefix(names: seq<string>, prefix: string): (r: seq<string>)
    ensures forall n :: n in r <==> n in names && prefix <= n
    ensures |r| <= |names|
  {
    if names == [] then []
    else (if prefix <= names[0] then [names[0]] else []) + GroupsByPrefix(names[1..], prefix)
  }

  /** The streams in `streams` whose names start with `prefix`, in order. */
  function StreamsByPrefix(streams: seq<LogStream>, prefix: string): (r: seq<LogStream>)
    ensures forall s :: s in r <==> s in streams && prefix <= s.logStreamName
    ensures |r| <= |streams|
  {
    if streams == [] then []
    else (if prefix <= streams[0].logStreamName then [streams[0]] else [])
         + StreamsByPrefix(streams[1..], prefix)
  }

  /** `firstOrNull { it.logStreamName == name }`: the first stream named
      exactly `name`, if there is one. */
  function FirstNamed(streams: seq<LogStream>, name: string): (r: Option<LogStream>)
    ensures r.None? <==> forall s :: s in streams ==> s.logStreamName != name
    ensures r.Some? ==> exists i :: 0 <= i < |streams| && streams[i] == r.value
                                    && forall j :: 0 <= j < i ==> streams[j].logStreamName != name
    ensures r.Some? ==> r.value.logStreamName == name
  {
    if streams == [] then None
    else if streams[0].logStreamName == name then Some(streams[0])
    else
      var r := FirstNamed(streams[1..], name);
      assert r.Some? ==> exists i :: 1 <= i < |streams| && streams[i] == r.value
                                     && forall j :: 0 <= j < i ==> streams[j].logStreamName != name by {
        if r.Some? {
          var i :| 0 <= i < |streams[1..]| && streams[1..][i] == r.value
                   && forall j :: 0 <= j < i ==> streams[1..][j].logStreamName != name;
          assert forall j :: 1 <= j < i + 1 ==> streams[j] == streams[1..][j - 1];
        }
      }
      r
  }

  /** Describing by the full name and then picking the exact name finds the
      same stream as picking the exact name from all streams: the prefix
      query cannot lose the stream it is asked about. */
  lemma {:induction false} FirstNamedByPrefix(streams: seq<LogStream>, name: string)
    ensures FirstNamed(StreamsByPrefix(streams, name), name) == FirstNamed(streams, name)
  {
    if streams != [] {
      FirstNamedByPrefix(streams[1..], name);
      var head := if name <= streams[0].logStreamName then [streams[0]] else [];
      assert StreamsByPrefix(streams, name) == head + StreamsByPrefix(streams[1..], name);
      if streams[0].logStreamName == name {
        assert StreamsByPrefix(streams, name)[0] == streams[0];
      } else if head != [] {
        assert StreamsByPrefix(streams, name)[1..] == StreamsByPrefix(streams[1..], name);
      } else {
        assert StreamsByPrefix(streams, name) == StreamsByPrefix(streams[1..], name);
      }
    }
  }

  /** A stream appended after the others is found by name only when no
      earlier stream has that name. */
  lemma {:induction false} FirstNamedAppend(streams: seq<LogStream>, s: LogStream, name: string)
    ensures FirstNamed(streams + [s], name)
            == if FirstNamed(streams, name).Some? then FirstNamed(streams, name)
               else if s.logStreamName == name then Some(s) else None
  {
    if streams != [] {
      assert (streams + [s])[1..] == streams[1..] + [s];
      FirstNamedAppend(streams[1..], s, name);
    }
  }

  /** The streams after a put: the first stream named `name` gets `token`. */
  function SetToken(streams: seq<LogStream>, name: string, token: Option<Token>): (r: seq<LogStream>)
    ensures |r| == |streams|
    ensures forall i :: 0 <= i < |r| ==> r[i].logStreamName == streams[i].logStreamName
    ensures FirstNamed(r, name) == if FirstNamed(streams, name).Some? then Some(LogStream(name, token)) else None
    ensures forall other :: other != name ==> FirstNamed(r, other) == FirstNamed(streams, other)
  {
    if streams == [] then []
    else if streams[0].logStreamName == name then [LogStream(name, token)] + streams[1..]
    else
      var r := [streams[0]] + SetToken(streams[1..], name, token);
      assert r[1..] == SetToken(streams[1..], name, token);
      r
  }

  /** The state of one CloudWatch Logs account. `failing` says which
      requests answer with a `ServiceError`: `(k, api)` in `failing` means
      that the request numbered `k` (counting from 0 in `calls`) fails if it
      is an `api` request. A failure thus belongs to one request, and a
      request can fail right after the same operation went through. */
  datatype Account = Account(
    groups: seq<string>,
    streams: map<string, seq<LogStream>>,
    sent: seq<PutRequest>,
    calls: seq<Call>,
    failing: set<(nat, Api)>,
    nextToken: Token)
  {
    /** Every group has a (possibly empty) list of streams and nothing else does. */
    ghost predicate Valid() {
      forall g :: g in groups <==> g in streams
    }

    /** The request numbered `k` fails if it is an `api` request. */
    predicate FailsAt(k: nat, api: Api) {
      (k, api) in failing
    }

    /** The next request fails if it is an `api` request. */
    predicate Fails(api: Api) {
      FailsAt(|calls|, api)
    }

    /** The stream `name` of group `group`, if both exist. */
    function Lookup(group: string, name: string): Option<LogStream> {
      if group in streams then FirstNamed(streams[group], name) else None
    }

    /** Why a put would be rejected now, or `None` if it would be accepted. */
    function PutRejection(request: PutRequest): Option<Failure> {
      if Fails(PutEvents) then Some(ServiceError)
      else if Lookup(request.logGroupName, request.logStreamName).None? then Some(ResourceNotFound)
      else if Lookup(request.logGroupName, request.logStreamName).value.uploadSequenceToken != request.sequenceToken
      then Some(InvalidSequenceToken)
      else None
    }

    /** The account after it has received `call`. */
    function Record(call: Call): Account {
      this.(calls := calls + [call])
    }
  }

  /** The account after a request, and the answer to it. */
  datatype Reply<+T> = Reply(account: Account, result: Result<T>)

  function DescribeGroupsReply(a: Account, prefix: string): (r: Reply<seq<string>>)
    ensures a.Valid() ==> r.account.Valid()
  {
    Reply(a.Record(DescribeGroupsCall(prefix)),
          if a.Fails(DescribeGroups) then Err(ServiceError) else Ok(GroupsByPrefix(a.groups, prefix)))
  }

  function CreateGroupReply(a: Account, name: string): (r: Reply<()>)
    ensures a.Valid() ==> r.account.Valid()
  {
    var b := a.Record(CreateGroupCall(name));
    if a.Fails(CreateGroup) then Reply(b, Err(ServiceError))
    else if name in a.groups then Reply(b, Err(ResourceAlreadyExists))
    else Reply(b.(groups := a.groups + [name], streams := a.streams[name := []]), Ok(()))
  }

  function DescribeStreamsReply(a: Account, group: string, prefix: string): (r: Reply<seq<LogStream>>)
    ensures a.Valid() ==> r.account.Valid()
  {
    Reply(a.Record(DescribeStreamsCall(group, prefix)),
          if a.Fails(DescribeStreams) then Err(ServiceError)
          else if group !in a.streams then Err(ResourceNotFound)
          else Ok(StreamsByPrefix(a.streams[group], prefix)))
  }

  function CreateStreamReply(a: Account, group: string, name: string): (r: Reply<()>)
    ensures a.Valid() ==> r.account.Valid()
  {
    var b := a.Record(CreateStreamCall(group, name));
    if a.Fails(CreateStream) then Reply(b, Err(ServiceError))
    else if group !in a.streams then Reply(b, Err(ResourceNotFound))
    else if a.Lookup(group, name).Some? then Reply(b, Err(ResourceAlreadyExists))
    else Reply(b.(streams := a.streams[group := a.streams[group] + [LogStream(name, None)]]), Ok(()))
  }

  /** An accepted put stores the request and gives the stream a new token. */
  function PutEventsReply(a: Account, request: PutRequest): (r: Reply<()>)
    ensures a.Valid() ==> r.account.Valid()
  {
    var b := a.Record(PutEventsCall(request));
    match a.PutRejection(request)
    case Some(f) => Reply(b, Err(f))
    case None =>
      var g := request.logGroupName;
      Reply(b.(streams := a.streams[g := SetToken(a.streams[g], request.logStreamName, Some(a.nextToken))],
               sent := a.sent + [request],
               nextToken := a.nextToken + 1),
            Ok(()))
  }

  /** The client's view of the account: each method is one request. */
  class LogStore {
    var account: Account

    /** An empty account whose requests fail as `failing` says. */
    constructor (failing: set<(nat, Api)>)
      ensures account == Account([], map[], [], [], failing, 0)
    {
      account := Account([], map[], [], [], failing, 0);
    }

    method DescribeLogGroups(prefix: string) returns (r: Result<seq<string>>)
      modifies this
      ensures account == DescribeGroupsReply(old(account), prefix).account
      ensures r == DescribeGroupsReply(old(account), prefix).result
    {
      var reply := DescribeGroupsReply(account, prefix);
      account, r := reply.account, reply.result;
    }

    method CreateLogGroup(name: string) returns (r: Result<()>)
      modifies this
      ensures account == CreateGroupReply(old(account), name).account
      ensures r == CreateGroupReply(old(account), name).result
    {
      var reply := CreateGroupReply(account, name);
      account, r := reply.account, reply.result;
    }

    method DescribeLogStreams(group: string, prefix: string) returns (r: Result<seq<LogStream>>)
      modifies this
      ensures account == DescribeStreamsReply(old(account), group, prefix).account
      ensures r == DescribeStreamsReply(old(account), group, prefix).result
    {
      var reply := DescribeStreamsReply(account, group, prefix);
      account, r := reply.account, reply.result;
    }

    method CreateLogStream(group: string, name: string) returns (r: Result<()>)
      modifies this
      ensures account == CreateStreamReply(old(account), group, name).account
      ensures r == CreateStreamReply(old(account), group, name).result
    {
      var reply := CreateStreamReply(account, group, name);
      account, r := reply.account, reply.result;
    }

    method PutLogEvents(request: PutRequest) returns (r: Result<()>)
      modifies this
      ensures account == PutEventsReply(old(account), request).account
      ensures r == PutEventsReply(old(account), request).result
    {
      var reply := PutEventsReply(account, request);
      account, r := reply.account, reply.result;
    }
  }
}
