/** The remote log shipper: the companion object of `CloudWatchLogger`,
    as one object over an abstract CloudWatch Logs account (`LogStore`).
    Every entry point runs as one sequential step; the coroutines around
    them are not part of this model. */
module CloudWatch {
  import opened KotlinText
  import opened LogService

  /** `getLogStreamName`: `"<uuid>_<manufacturer>_<model>"` with every space
      of the device part replaced by an underscore. The random UUID and the
      `Build` strings are parameters. */
  function StreamName(uuid: string, manufacturer: string, model: string): (r: string)
    ensures uuid + "_" <= r
    ensures |r| == |uuid| + |manufacturer| + |model| + 2
    ensures ' ' !in r[|uuid| + 1..]
    ensures forall i :: 0 <= i < |manufacturer| + 1 + |model| ==>
              var device := manufacturer + "_" + model;
              r[|uuid| + 1 + i] == if device[i] == ' ' then '_' else device[i]
    ensures !IsBlank(r)
  {
    var deviceName := ReplaceChar(manufacturer + "_" + model, ' ', '_');
    var r := uuid + "_" + deviceName;
    assert r[|uuid| + 1..] == deviceName;
    IsBlankConcat(uuid, "_");
    IsBlankConcat(uuid + "_", deviceName);
    WhitespaceAscii("_"[0]);
    r
  }

  /** Two runs whose UUIDs differ never write to the same stream, whatever
      the device. */
  lemma StreamNamesDistinct(uuid1: string, uuid2: string, manufacturer: string, model: string)
    requires uuid1 != uuid2
    ensures StreamName(uuid1, manufacturer, model) != StreamName(uuid2, manufacturer, model)
  {
    var r1, r2 := StreamName(uuid1, manufacturer, model), StreamName(uuid2, manufacturer, model);
    if |uuid1| == |uuid2| {
      assert r1[..|uuid1|] == uuid1 && r2[..|uuid2|] == uuid2;
    }
  }

  /** The decision of `doesLogGroupExist` on the answer to a
      describe-by-prefix request: some listed group has exactly that name;
      a failed request counts as "does not exist". */
  function GroupFound(response: Result<seq<string>>, name: string): bool {
    response.Ok? && name in response.value
  }

  /** Asking by prefix and then matching exactly answers exactly whether the
      group exists. */
  lemma GroupFoundIffListed(groups: seq<string>, name: string)
    ensures GroupFound(Ok(GroupsByPrefix(groups, name)), name) <==> name in groups
  {
    if name in groups {
      assert name <= name;
    }
  }

  /** A group that only starts with `name` is listed by the prefix query but
      does not make `name` exist. */
  lemma PrefixIsNotAMatch(groups: seq<string>, name: string, longer: string)
    requires longer in groups && name < longer && name !in groups
    ensures longer in GroupsByPrefix(groups, name)
    ensures !GroupFound(Ok(GroupsByPrefix(groups, name)), name)
  {
  }


  /** The names the shipper works with: `LOG_GROUP_NAME`, `LOG_GROUP_NAME_NEW`
      and `LOG_STREAM_NAME`. */
  datatype Names = Names(logGroupName: string, logGroupNameNew: string, logStreamName: string)

  /** The guard of `logMessage`. */
  predicate NamesBlank(n: Names) {
    IsBlank(n.logGroupName) || IsBlank(n.logStreamName)
  }

  /** What `createLogStream` ended with; the source only logs the difference. */
  datatype StreamOutcome = Created | AlreadyPresent | Swallowed(failure: Failure)

  /** `doesLogGroupExist(name)` against account `a`: one describe by prefix,
      then an exact match; the answer is whether the group exists, and a
      failed describe answers "no". */
  function DoesLogGroupExistStep(a: Account, name: string): (r: (Account, bool))
    ensures r.0 == a.Record(DescribeGroupsCall(name))
    ensures r.1 <==> !a.Fails(DescribeGroups) && name in a.groups
  {
    var response := DescribeGroupsReply(a, name);
    GroupFoundIffListed(a.groups, name);
    (response.account, GroupFound(response.result, name))
  }

  /** `createLogGroup(name)`: every failure, "already exists" included, is
      swallowed; afterwards the group exists unless the request failed for
      another reason. */
  function CreateLogGroupStep(a: Account, name: string): (r: Account)
    ensures r.calls == a.calls + [CreateGroupCall(name)]
    ensures r.sent == a.sent && r.failing == a.failing && r.nextToken == a.nextToken
    ensures !a.Fails(CreateGroup) ==> name in r.groups
    ensures if a.Fails(CreateGroup) || name in a.groups
            then r.groups == a.groups && r.streams == a.streams
            else r.groups == a.groups + [name] && r.streams == a.streams[name := []]
    ensures a.Valid() ==> r.Valid()
  {
    CreateGroupReply(a, name).account
  }

  /** `createLogStream()`: describe the stream in `logGroupName`, create it
      only when no described stream has exactly its name, and swallow every
      failure ("already exists" counting as success). */
  function CreateLogStreamStep(a: Account, n: Names): (r: (Account, StreamOutcome))
    ensures r.0.groups == a.groups && r.0.sent == a.sent
    ensures r.0.failing == a.failing && r.0.nextToken == a.nextToken
    ensures r.1 == if a.Fails(DescribeStreams) then Swallowed(ServiceError)
                   else if n.logGroupName !in a.streams then Swallowed(ResourceNotFound)
                   else if a.Lookup(n.logGroupName, n.logStreamName).Some? then AlreadyPresent
                   else if a.FailsAt(|a.calls| + 1, CreateStream) then Swallowed(ServiceError)
                   else Created
    ensures r.0.calls == a.calls + [DescribeStreamsCall(n.logGroupName, n.logStreamName)]
              + (if !a.Fails(DescribeStreams) && n.logGroupName in a.streams
                    && a.Lookup(n.logGroupName, n.logStreamName).None?
                 then [CreateStreamCall(n.logGroupName, n.logStreamName)] else [])
    ensures r.1 == Created ==>
              r.0.streams == a.streams[n.logGroupName := a.streams[n.logGroupName] + [LogStream(n.logStreamName, None)]]
              && r.0.Lookup(n.logGroupName, n.logStreamName) == Some(LogStream(n.logStreamName, None))
    ensures r.1 != Created ==> r.0.streams == a.streams
    ensures r.0.streams.Keys == a.streams.Keys
    ensures a.Valid() ==> r.0.Valid()
  {
    var g, s := n.logGroupName, n.logStreamName;
    var described := DescribeStreamsReply(a, g, s);
    if described.result.Err? then (described.account, Swallowed(described.result.failure))
    else
      FirstNamedByPrefix(a.streams[g], s);
      match FirstNamed(described.result.value, s)
      case Some(_) => (described.account, AlreadyPresent)
      case None =>
        var created := CreateStreamReply(described.account, g, s);
        if created.result.Ok? then
          FirstNamedAppend(a.streams[g], LogStream(s, None), s);
          (created.account, Created)
        else if created.result.failure == ResourceAlreadyExists then (created.account, AlreadyPresent)
        else (created.account, Swallowed(created.result.failure))
  }

  /** The one request `logMessage` can send: to the shipper's own stream,
      with exactly one event. */
  function Request(n: Names, message: string, now: int, token: Option<Token>): PutRequest {
    PutRequest(n.logGroupName, n.logStreamName, token, [InputLogEvent(message, now)])
  }

  /** `sendLogEvent(event, token)`: one put; a rejection is swallowed. */
  function SendLogEventStep(a: Account, n: Names, logEvent: InputLogEvent, token: Option<Token>): (r: Account)
    ensures var request := PutRequest(n.logGroupName, n.logStreamName, token, [logEvent]);
            r.calls == a.calls + [PutEventsCall(request)]
            && r.sent == a.sent + (if a.PutRejection(request).None? then [request] else [])
    ensures r.groups == a.groups && r.failing == a.failing && r.streams.Keys == a.streams.Keys
    ensures a.Valid() ==> r.Valid()
    // an accepted put hands the stream a fresh token
    ensures a.PutRejection(PutRequest(n.logGroupName, n.logStreamName, token, [logEvent])).None? ==>
              r.Lookup(n.logGroupName, n.logStreamName) == Some(LogStream(n.logStreamName, Some(a.nextToken)))
    ensures a.PutRejection(PutRequest(n.logGroupName, n.logStreamName, token, [logEvent])).Some? ==>
              r.streams == a.streams
  {
    PutEventsReply(a, PutRequest(n.logGroupName, n.logStreamName, token, [logEvent])).account
  }

  /** `logMessage(message)` at time `now`, as one atomic step. */
  function LogMessageStep(a: Account, n: Names, message: string, now: int): (r: Account)
    ensures a.calls <= r.calls && a.sent <= r.sent
    ensures r.groups == a.groups && r.failing == a.failing && r.streams.Keys == a.streams.Keys
  {
    var g, s := n.logGroupName, n.logStreamName;
    if NamesBlank(n) then a
    else
      var logEvent := InputLogEvent(message, now);
      var described := DescribeStreamsReply(a, g, s);
      if described.result.Err? then described.account
      else match FirstNamed(described.result.value, s)
        case Some(logStream) => SendLogEventStep(described.account, n, logEvent, logStream.uploadSequenceToken)
        case None =>
          var created := CreateLogStreamStep(described.account, n).0;
          var updated := DescribeStreamsReply(created, g, s);
          if updated.result.Err? then updated.account
          else match FirstNamed(updated.result.value, s)
            case None => updated.account
            case Some(updatedLogStream) =>
              SendLogEventStep(updated.account, n, logEvent, updatedLogStream.uploadSequenceToken)
  }

  /** The group part of `initialize`: check `logGroupName` and, when the
      check fails, create `logGroupNameNew` instead. */
  function EnsureGroupStep(a: Account, n: Names): (r: Account)
    ensures var found := !a.Fails(DescribeGroups) && n.logGroupName in a.groups;
            var groupCreated := !found && !a.FailsAt(|a.calls| + 1, CreateGroup) && n.logGroupNameNew !in a.groups;
            r.calls == a.calls + [DescribeGroupsCall(n.logGroupName)]
                       + (if found then [] else [CreateGroupCall(n.logGroupNameNew)])
            && r.groups == a.groups + (if groupCreated then [n.logGroupNameNew] else [])
            && r.streams == (if groupCreated then a.streams[n.logGroupNameNew := []] else a.streams)
    ensures r.sent == a.sent && r.failing == a.failing && r.nextToken == a.nextToken
    ensures a.Valid() ==> r.Valid()
  {
    var checked := DoesLogGroupExistStep(a, n.logGroupName);
    if checked.1 then checked.0 else CreateLogGroupStep(checked.0, n.logGroupNameNew)
  }

  /** `initialize`, from the point where the client exists: the group
      check, then the stream provisioning in `logGroupName` in any case.
      It only adds requests, never puts, and keeps the account well formed. */
  function InitializeStep(a: Account, n: Names): (r: Account)
    ensures a.calls < r.calls && r.sent == a.sent && r.failing == a.failing
    ensures a.Valid() ==> r.Valid()
  {
    CreateLogStreamStep(EnsureGroupStep(a, n), n).0
  }

  /** The token a describe made now would hand to the put: the stream's
      current token; `null` while the stream does not exist, which is also
      the token of a stream created just now. */
  function TokenToUse(a: Account, n: Names): Option<Token> {
    match a.Lookup(n.logGroupName, n.logStreamName)
    case Some(stream) => stream.uploadSequenceToken
    case None => None
  }

  /** `logMessage` when the first describe finds the stream: one put with
      that stream's token. */
  lemma LogMessageWhenFound(a: Account, n: Names, message: string, now: int)
    requires !NamesBlank(n) && !a.Fails(DescribeStreams) && n.logGroupName in a.streams
    requires a.Lookup(n.logGroupName, n.logStreamName).Some?
    ensures LogMessageStep(a, n, message, now)
            == SendLogEventStep(a.Record(DescribeStreamsCall(n.logGroupName, n.logStreamName)), n,
                                InputLogEvent(message, now), TokenToUse(a, n))
  {
    FirstNamedByPrefix(a.streams[n.logGroupName], n.logStreamName);
  }

  /** `logMessage` when the first describe does not find the stream: run
      `createLogStream`, describe again, and put with no token only if the
      stream was created and the second describe goes through. */
  lemma LogMessageWhenMissing(a: Account, n: Names, message: string, now: int)
    requires !NamesBlank(n) && !a.Fails(DescribeStreams) && n.logGroupName in a.streams
    requires a.Lookup(n.logGroupName, n.logStreamName).None?
    ensures var describe := DescribeStreamsCall(n.logGroupName, n.logStreamName);
            var created := CreateLogStreamStep(a.Record(describe), n);
            LogMessageStep(a, n, message, now)
            == if created.1 == Created && !created.0.Fails(DescribeStreams)
               then SendLogEventStep(created.0.Record(describe), n, InputLogEvent(message, now), None)
               else created.0.Record(describe)
  {
    var g, s := n.logGroupName, n.logStreamName;
    FirstNamedByPrefix(a.streams[g], s);
    var created := CreateLogStreamStep(a.Record(DescribeStreamsCall(g, s)), n);
    FirstNamedByPrefix(created.0.streams[g], s);
  }

  /** Blank names: no request at all. */
  lemma LogMessageBlankNames(a: Account, n: Names, message: string, now: int)
    requires NamesBlank(n)
    ensures LogMessageStep(a, n, message, now) == a
  {
  }

  /** At most one put, and it carries the token of the stream found by exact
      name in the latest describe: the first one if the stream was there,
      the one after creating it (a new stream has no token) otherwise.
      Groups are never touched. */
  lemma LogMessageSendsAtMostOnce(a: Account, n: Names, message: string, now: int)
    ensures var r := LogMessageStep(a, n, message, now);
            r.sent == a.sent || r.sent == a.sent + [Request(n, message, now, TokenToUse(a, n))]
    ensures var r := LogMessageStep(a, n, message, now);
            r.groups == a.groups && r.failing == a.failing && r.streams.Keys == a.streams.Keys
  {
    if !NamesBlank(n) && !a.Fails(DescribeStreams) && n.logGroupName in a.streams {
      if a.Lookup(n.logGroupName, n.logStreamName).Some? {
        LogMessageWhenFound(a, n, message, now);
      } else {
        LogMessageWhenMissing(a, n, message, now);
      }
    }
  }

  /** The message reaches the store exactly when the names are set, the
      stream's group exists and every request on the way goes through: the
      describe and the put when the stream exists; otherwise the describe,
      the describe and the create of `createLogStream`, the second describe
      and the put. */
  lemma LogMessageDelivered(a: Account, n: Names, message: string, now: int)
    ensures var r := LogMessageStep(a, n, message, now);
            var k := |a.calls|;
            r.sent != a.sent <==>
              !NamesBlank(n) && n.logGroupName in a.streams && !a.Fails(DescribeStreams)
              && (if a.Lookup(n.logGroupName, n.logStreamName).Some?
                  then !a.FailsAt(k + 1, PutEvents)
                  else !a.FailsAt(k + 1, DescribeStreams) && !a.FailsAt(k + 2, CreateStream)
                       && !a.FailsAt(k + 3, DescribeStreams) && !a.FailsAt(k + 4, PutEvents))
  {
    if !NamesBlank(n) && !a.Fails(DescribeStreams) && n.logGroupName in a.streams {
      if a.Lookup(n.logGroupName, n.logStreamName).Some? {
        LogMessageDeliveredWhenFound(a, n, message, now);
      } else {
        LogMessageDeliveredWhenMissing(a, n, message, now);
      }
    }
  }

  /** The found-stream case of `LogMessageDelivered`: the message is stored
      exactly when the put after the describe goes through. */
  lemma LogMessageDeliveredWhenFound(a: Account, n: Names, message: string, now: int)
    requires !NamesBlank(n) && !a.Fails(DescribeStreams) && n.logGroupName in a.streams
    requires a.Lookup(n.logGroupName, n.logStreamName).Some?
    ensures LogMessageStep(a, n, message, now).sent != a.sent <==> !a.FailsAt(|a.calls| + 1, PutEvents)
  {
    var g, s := n.logGroupName, n.logStreamName;
    LogMessageWhenFound(a, n, message, now);
    var b := a.Record(DescribeStreamsCall(g, s));
    assert |b.calls| == |a.calls| + 1 && b.Lookup(g, s) == a.Lookup(g, s) && b.sent == a.sent;
  }

  /** The missing-stream case of `LogMessageDelivered`, request by request. */
  lemma LogMessageDeliveredWhenMissing(a: Account, n: Names, message: string, now: int)
    requires !NamesBlank(n) && !a.Fails(DescribeStreams) && n.logGroupName in a.streams
    requires a.Lookup(n.logGroupName, n.logStreamName).None?
    ensures var k := |a.calls|;
            LogMessageStep(a, n, message, now).sent != a.sent <==>
              !a.FailsAt(k + 1, DescribeStreams) && !a.FailsAt(k + 2, CreateStream)
              && !a.FailsAt(k + 3, DescribeStreams) && !a.FailsAt(k + 4, PutEvents)
  {
    var g, s, k := n.logGroupName, n.logStreamName, |a.calls|;
    var describe := DescribeStreamsCall(g, s);
    LogMessageWhenMissing(a, n, message, now);
    var b := a.Record(describe);
    assert |b.calls| == k + 1 && b.streams == a.streams && b.failing == a.failing && b.sent == a.sent;
    var created := CreateLogStreamStep(b, n);
    if created.1 == Created {
      assert |created.0.calls| == k + 3;
      var c := created.0.Record(describe);
      assert |c.calls| == k + 4 && c.Lookup(g, s) == Some(LogStream(s, None));
    } else {
      assert created.0.sent == a.sent && created.0.Record(describe).sent == a.sent;
    }
  }

  /** A stream that is still missing after `createLogStream` (its describe
      or its create failed): the second describe finds nothing and the
      message is dropped. */
  lemma LogMessageDropsWhenStillMissing(a: Account, n: Names, message: string, now: int)
    requires !NamesBlank(n) && !a.Fails(DescribeStreams) && n.logGroupName in a.streams
    requires a.Lookup(n.logGroupName, n.logStreamName).None?
    requires a.FailsAt(|a.calls| + 1, DescribeStreams) || a.FailsAt(|a.calls| + 2, CreateStream)
    ensures var r := LogMessageStep(a, n, message, now);
            r.sent == a.sent && r.streams == a.streams
  {
    LogMessageWhenMissing(a, n, message, now);
  }

  /** The stream is created, but the describe after the creation throws:
      the exception is caught, and the message is lost although the stream
      now exists. */
  lemma LogMessageDropsWhenRedescribeFails(a: Account, n: Names, message: string, now: int)
    requires !NamesBlank(n) && !a.Fails(DescribeStreams) && n.logGroupName in a.streams
    requires a.Lookup(n.logGroupName, n.logStreamName).None?
    requires !a.FailsAt(|a.calls| + 1, DescribeStreams) && !a.FailsAt(|a.calls| + 2, CreateStream)
    requires a.FailsAt(|a.calls| + 3, DescribeStreams)
    ensures var r := LogMessageStep(a, n, message, now);
            r.sent == a.sent && r.Lookup(n.logGroupName, n.logStreamName) == Some(LogStream(n.logStreamName, None))
  {
    LogMessageWhenMissing(a, n, message, now);
  }

  /** The requests `logMessage` makes when the describe fails: that describe only. */
  lemma LogMessageCallsWhenDescribeFails(a: Account, n: Names, message: string, now: int)
    requires !NamesBlank(n)
    requires a.Fails(DescribeStreams) || n.logGroupName !in a.streams
    ensures LogMessageStep(a, n, message, now) == a.Record(DescribeStreamsCall(n.logGroupName, n.logStreamName))
  {
  }

  /** The requests `logMessage` makes when the stream exists: describe, put. */
  lemma LogMessageCallsWhenFound(a: Account, n: Names, message: string, now: int)
    requires !NamesBlank(n) && !a.Fails(DescribeStreams)
    requires a.Lookup(n.logGroupName, n.logStreamName).Some?
    ensures LogMessageStep(a, n, message, now).calls
            == a.calls + [DescribeStreamsCall(n.logGroupName, n.logStreamName),
                          PutEventsCall(Request(n, message, now, TokenToUse(a, n)))]
  {
    LogMessageWhenFound(a, n, message, now);
    var describe := DescribeStreamsCall(n.logGroupName, n.logStreamName);
    var request := Request(n, message, now, TokenToUse(a, n));
    var b := a.Record(describe);
    assert b.calls == a.calls + [describe];
    assert request == PutRequest(n.logGroupName, n.logStreamName, TokenToUse(a, n), [InputLogEvent(message, now)]);
    assert LogMessageStep(a, n, message, now).calls == b.calls + [PutEventsCall(request)];
  }

  /** The requests `logMessage` makes when the stream is missing: describe,
      then `createLogStream` (describe, and create when that describe went
      through), describe again, and a put when the stream was created and
      the second describe went through. */
  lemma LogMessageCallsWhenMissing(a: Account, n: Names, message: string, now: int)
    requires !NamesBlank(n) && !a.Fails(DescribeStreams) && n.logGroupName in a.streams
    requires a.Lookup(n.logGroupName, n.logStreamName).None?
    ensures var describe := DescribeStreamsCall(n.logGroupName, n.logStreamName);
            var k := |a.calls|;
            var createTried := !a.FailsAt(k + 1, DescribeStreams);
            var created := createTried && !a.FailsAt(k + 2, CreateStream);
            LogMessageStep(a, n, message, now).calls
            == a.calls + [describe, describe]
                       + (if createTried then [CreateStreamCall(n.logGroupName, n.logStreamName)] else [])
                       + [describe]
                       + (if created && !a.FailsAt(k + 3, DescribeStreams)
                          then [PutEventsCall(Request(n, message, now, None))] else [])
  {
    var g, s := n.logGroupName, n.logStreamName;
    var describe := DescribeStreamsCall(g, s);
    LogMessageWhenMissing(a, n, message, now);
    var b := a.Record(describe);
    assert b.streams == a.streams && b.failing == a.failing && b.calls == a.calls + [describe];
    var created := CreateLogStreamStep(b, n);
    if !a.FailsAt(|a.calls| + 1, DescribeStreams) {
      assert created.0.calls == a.calls + [describe, describe] + [CreateStreamCall(g, s)];
      assert created.1 == Created <==> !a.FailsAt(|a.calls| + 2, CreateStream);
      assert |created.0.calls| == |a.calls| + 3;
    } else {
      assert created.0.calls == a.calls + [describe, describe];
      assert created.1 != Created;
    }
  }

  /** A missing stream is created on the way whenever its group exists and
      the requests of `createLogStream` go through; a found stream stays. */
  lemma LogMessageProvisionsStream(a: Account, n: Names, message: string, now: int)
    requires !NamesBlank(n) && n.logGroupName in a.streams && !a.Fails(DescribeStreams)
    requires a.Lookup(n.logGroupName, n.logStreamName).None? ==>
               !a.FailsAt(|a.calls| + 1, DescribeStreams) && !a.FailsAt(|a.calls| + 2, CreateStream)
    ensures LogMessageStep(a, n, message, now).Lookup(n.logGroupName, n.logStreamName).Some?
  {
    if a.Lookup(n.logGroupName, n.logStreamName).Some? {
      LogMessageWhenFound(a, n, message, now);
    } else {
      LogMessageWhenMissing(a, n, message, now);
    }
  }

  /** `initialize` creates `logGroupNameNew`, and only that group, exactly
      when the check for `logGroupName` fails and the creation goes through. */
  lemma InitializeGroups(a: Account, n: Names)
    ensures var r := InitializeStep(a, n);
            var found := !a.Fails(DescribeGroups) && n.logGroupName in a.groups;
            var groupCreated := !found && !a.FailsAt(|a.calls| + 1, CreateGroup) && n.logGroupNameNew !in a.groups;
            r.groups == a.groups + (if groupCreated then [n.logGroupNameNew] else [])
            && r.sent == a.sent && r.failing == a.failing && r.nextToken == a.nextToken
  {
  }

  /** The requests `initialize` makes: the group check, a group creation
      when the check failed, then a stream describe in `logGroupName` and a
      stream creation when that describe found nothing. */
  lemma InitializeCalls(a: Account, n: Names)
    requires a.Valid()
    ensures var r := InitializeStep(a, n);
            var g, s := n.logGroupName, n.logStreamName;
            var found := !a.Fails(DescribeGroups) && g in a.groups;
            var groupCreated := !found && !a.FailsAt(|a.calls| + 1, CreateGroup) && n.logGroupNameNew !in a.groups;
            var groupReady := g in a.streams || (g == n.logGroupNameNew && groupCreated);
            var d := |a.calls| + (if found then 1 else 2);
            r.calls == a.calls + [DescribeGroupsCall(g)]
                       + (if found then [] else [CreateGroupCall(n.logGroupNameNew)])
                       + [DescribeStreamsCall(g, s)]
                       + (if !a.FailsAt(d, DescribeStreams) && groupReady && a.Lookup(g, s).None?
                          then [CreateStreamCall(g, s)] else [])
  {
    var grouped := EnsureGroupStep(a, n);
    assert grouped.Lookup(n.logGroupName, n.logStreamName) == a.Lookup(n.logGroupName, n.logStreamName);
  }

  /** After `initialize` the stream exists in `logGroupName` exactly when it
      did before or its group was there to create it in and both stream
      requests went through; no other group gains a stream. */
  lemma InitializeStream(a: Account, n: Names)
    requires a.Valid()
    ensures var r := InitializeStep(a, n);
            var g, s := n.logGroupName, n.logStreamName;
            var found := !a.Fails(DescribeGroups) && g in a.groups;
            var groupCreated := !found && !a.FailsAt(|a.calls| + 1, CreateGroup) && n.logGroupNameNew !in a.groups;
            var groupReady := g in a.streams || (g == n.logGroupNameNew && groupCreated);
            var d := |a.calls| + (if found then 1 else 2);
            (r.Lookup(g, s).Some? <==>
               a.Lookup(g, s).Some?
               || (groupReady && !a.FailsAt(d, DescribeStreams) && !a.FailsAt(d + 1, CreateStream)))
            && (forall h :: h != g && h in a.streams ==> h in r.streams && r.streams[h] == a.streams[h])
            && (n.logGroupNameNew != g && groupCreated ==> r.streams[n.logGroupNameNew] == [])
  {
    var g, s := n.logGroupName, n.logStreamName;
    var found := !a.Fails(DescribeGroups) && g in a.groups;
    var groupCreated := !found && !a.FailsAt(|a.calls| + 1, CreateGroup) && n.logGroupNameNew !in a.groups;
    var grouped := EnsureGroupStep(a, n);
    assert grouped.Lookup(g, s) == a.Lookup(g, s) && grouped.failing == a.failing;
    assert |grouped.calls| == |a.calls| + (if found then 1 else 2);
    assert g in grouped.streams <==> g in a.streams || (g == n.logGroupNameNew && groupCreated);
    var r := CreateLogStreamStep(grouped, n);
    assert r.0.Lookup(g, s).Some? <==> a.Lookup(g, s).Some? || r.1 == Created;
  }

  /** The quirk of `initialize`: when `logGroupName` is missing and differs
      from `logGroupNameNew`, the fallback group is created but the stream
      is looked for and created in the missing group, so no stream exists
      afterwards and no message can be delivered. */
  lemma InitializeMissingGroupQuirk(a: Account, n: Names, message: string, now: int)
    requires a.Valid()
    requires n.logGroupName != n.logGroupNameNew && n.logGroupName !in a.groups
    ensures var r := InitializeStep(a, n);
            n.logGroupName !in r.streams && r.Lookup(n.logGroupName, n.logStreamName) == None
            && LogMessageStep(r, n, message, now).sent == r.sent
  {
    var r := InitializeStep(a, n);
    LogMessageDelivered(r, n, message, now);
  }

  /** With a healthy account and `logGroupNameNew` equal to `logGroupName`,
      the first message after `initialize` is delivered, exactly once. */
  lemma InitializeThenLogDelivers(a: Account, n: Names, message: string, now: int)
    requires a.Valid() && a.failing == {}
    requires n.logGroupNameNew == n.logGroupName && !NamesBlank(n)
    ensures var r := InitializeStep(a, n);
            LogMessageStep(r, n, message, now).sent == a.sent + [Request(n, message, now, TokenToUse(r, n))]
  {
    var r := InitializeStep(a, n);
    InitializeGroups(a, n);
    InitializeStream(a, n);
    LogMessageSendsAtMostOnce(r, n, message, now);
    LogMessageDelivered(r, n, message, now);
  }

  /** The companion object: the names, and the client once `initialize` has
      assigned it. */
  class CloudWatchLogger {
    const names: Names
    /** `lateinit logsClient`: `null` until `initialize` assigns it. */
    var logsClient: LogStore?

    /** The object as the class loader sets it up: `LOG_STREAM_NAME` from a
        fresh UUID and the device's manufacturer and model. */
    constructor (groupName: string, groupNameNew: string, uuid: string, manufacturer: string, model: string)
      ensures names == Names(groupName, groupNameNew, StreamName(uuid, manufacturer, model))
      ensures logsClient == null
    {
      names := Names(groupName, groupNameNew, StreamName(uuid, manufacturer, model));
      logsClient := null;
    }

    /** `initialize` with a client for `store`; `regionKnown` says whether
        the region name is one the SDK knows (an unknown one throws before
        any request, and the exception is caught). */
    method Initialize(store: LogStore, regionKnown: bool)
      modifies this, store
      ensures logsClient == store
      ensures store.account == if regionKnown then InitializeStep(old(store.account), names)
                               else old(store.account)
    {
      logsClient := store;
      if !regionKnown {
        return;
      }
      var groupExists := DoesLogGroupExist(names.logGroupName);
      if !groupExists {
        CreateLogGroup(names.logGroupNameNew);
      }
      var _ := CreateLogStream();
    }

    method CreateLogGroup(name: string)
      requires logsClient != null
      modifies logsClient
      ensures logsClient.account == CreateLogGroupStep(old(logsClient.account), name)
    {
      var _ := logsClient.CreateLogGroup(name);
    }

    method DoesLogGroupExist(name: string) returns (found: bool)
      requires logsClient != null
      modifies logsClient
      ensures (logsClient.account, found) == DoesLogGroupExistStep(old(logsClient.account), name)
    {
      var response := logsClient.DescribeLogGroups(name);
      found := GroupFound(response, name);
    }

    method CreateLogStream() returns (outcome: StreamOutcome)
      requires logsClient != null
      modifies logsClient
      ensures (logsClient.account, outcome) == CreateLogStreamStep(old(logsClient.account), names)
    {
      var g, s := names.logGroupName, names.logStreamName;
      var described := logsClient.DescribeLogStreams(g, s);
      if described.Err? {
        outcome := Swallowed(described.failure);
        return;
      }
      var existing := FirstNamed(described.value, s);
      if existing == None {
        var created := logsClient.CreateLogStream(g, s);
        if created.Ok? {
          outcome := Created;
        } else if created.failure == ResourceAlreadyExists {
          outcome := AlreadyPresent;
        } else {
          outcome := Swallowed(created.failure);
        }
      } else {
        outcome := AlreadyPresent;
      }
    }

    method SendLogEvent(logEvent: InputLogEvent, sequenceToken: Option<Token>)
      requires logsClient != null
      modifies logsClient
      ensures logsClient.account == SendLogEventStep(old(logsClient.account), names, logEvent, sequenceToken)
    {
      var _ := logsClient.PutLogEvents(PutRequest(names.logGroupName, names.logStreamName, sequenceToken, [logEvent]));
    }

    method LogMessage(message: string, now: int)
      modifies logsClient
      ensures logsClient != null ==>
                logsClient.account == LogMessageStep(old(logsClient.account), names, message, now)
    {
      var g, s := names.logGroupName, names.logStreamName;
      if IsBlank(g) || IsBlank(s) {
        return;
      }
      var logEvent := InputLogEvent(message, now);
      if logsClient == null {
        // the uninitialised `lateinit` client throws; the exception is caught
        return;
      }
      var described := logsClient.DescribeLogStreams(g, s);
      if described.Err? {
        return;
      }
      var logStream := FirstNamed(described.value, s);
      if logStream == None {
        var _ := CreateLogStream();
        var updated := logsClient.DescribeLogStreams(g, s);
        if updated.Err? {
          return;
        }
        var updatedLogStream := FirstNamed(updated.value, s);
        if updatedLogStream == None {
          return;
        }
        SendLogEvent(logEvent, updatedLogStream.value.uploadSequenceToken);
      } else {
        SendLogEvent(logEvent, logStream.value.uploadSequenceToken);
      }
    }
  }
}
