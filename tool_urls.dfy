/**
  The URL each registered tool fetches, stated for concrete arguments, and the
  query scenarios the truthiness rule produces.
*/
module ToolUrls {
  import opened Registry
  import opened FormUrlEncoded
  import opened Decimal
  import opened RequestBuilder

  lemma LitUrl(t: ToolDef, args: Args, text: string)
    requires t.path == [Lit(text)] && forall k :: k in t.queryKeys ==> k !in args
    ensures RequestUrl(t, args) == Base + text
  {
    QueryEmptyWhenNoneSent(t.queryKeys, args);
    assert SplicePath(t.path, args) == SplicePath([], args) + text;
  }

  lemma LitParamUrl(t: ToolDef, args: Args, text: string, name: string)
    requires t.path == [Lit(text), Param(name)] && forall k :: k in t.queryKeys ==> k !in args
    requires name in args && args[name].Str?
    ensures RequestUrl(t, args) == Base + text + args[name].s
  {
    QueryEmptyWhenNoneSent(t.queryKeys, args);
    assert t.path[..1] == [Lit(text)];
    assert SplicePath(t.path[..1], args) == SplicePath([], args) + text;
  }

  lemma LitParamLitUrl(t: ToolDef, args: Args, text: string, name: string, tail: string)
    requires t.path == [Lit(text), Param(name), Lit(tail)] && forall k :: k in t.queryKeys ==> k !in args
    requires name in args && args[name].Str?
    ensures RequestUrl(t, args) == Base + text + args[name].s + tail
  {
    QueryEmptyWhenNoneSent(t.queryKeys, args);
    assert t.path[..2] == [Lit(text), Param(name)];
    assert t.path[..2][..1] == [Lit(text)];
    assert SplicePath(t.path[..2][..1], args) == SplicePath([], args) + text;
    assert SplicePath(t.path[..2], args) == text + args[name].s;
    assert SplicePath(t.path, args) == SplicePath(t.path[..2], args) + tail;
  }

  /** The user and internal-user tools fetch their fixed path with the argument appended. */
  lemma UserToolUrls(v: string)
    ensures RequestUrl(FetchUser, map["id" := Str(v)]) == Base + "/users/" + v
    ensures RequestUrl(FetchInternalUser, map["id" := Str(v)]) == Base + "/internal-users/" + v
    ensures RequestUrl(FetchInternalUserByEmployeeId, map["employeeId" := Str(v)])
      == Base + "/internal-users/employee/" + v
    ensures RequestUrl(FetchAllInternalUsers, map[]) == Base + "/internal-users"
    ensures RequestUrl(FetchAvailableAgents, map[]) == Base + "/internal-users/available-agents"
  {
    LitParamUrl(FetchUser, map["id" := Str(v)], "/users/", "id");
    LitParamUrl(FetchInternalUser, map["id" := Str(v)], "/internal-users/", "id");
    LitParamUrl(FetchInternalUserByEmployeeId, map["employeeId" := Str(v)], "/internal-users/employee/", "employeeId");
    LitUrl(FetchAllInternalUsers, map[], "/internal-users");
    LitUrl(FetchAvailableAgents, map[], "/internal-users/available-agents");
  }

  /** The log tools: the user id and the event type are spliced in, `/stats` follows the user id. */
  lemma LogToolUrls(v: string)
    ensures RequestUrl(FetchUserLogs, map["userId" := Str(v)]) == Base + "/user-logs/user/" + v
    ensures RequestUrl(FetchUserLogStats, map["userId" := Str(v)])
      == Base + "/user-logs/user/" + v + "/stats"
    ensures RequestUrl(FetchAllUserLogs, map[]) == Base + "/user-logs"
    ensures RequestUrl(FetchLogsByEventType, map["eventType" := Str(v)])
      == Base + "/user-logs/event/" + v
  {
    LitParamUrl(FetchUserLogs, map["userId" := Str(v)], "/user-logs/user/", "userId");
    LitParamLitUrl(FetchUserLogStats, map["userId" := Str(v)], "/user-logs/user/", "userId", "/stats");
    LitUrl(FetchAllUserLogs, map[], "/user-logs");
    LitParamUrl(FetchLogsByEventType, map["eventType" := Str(v)], "/user-logs/event/", "eventType");
  }

  /** The complaint tools that read one complaint or none. */
  lemma ComplaintToolUrls(v: string)
    ensures RequestUrl(FetchAllComplaints, map[]) == Base + "/complaints"
    ensures RequestUrl(FetchComplaint, map["id" := Str(v)]) == Base + "/complaints/" + v
    ensures RequestUrl(FetchComplaintByTicketNumber, map["ticketNumber" := Str(v)])
      == Base + "/complaints/ticket/" + v
    ensures RequestUrl(FetchComplaintResponses, map["complaintId" := Str(v)])
      == Base + "/complaints/" + v + "/responses"
  {
    LitUrl(FetchAllComplaints, map[], "/complaints");
    LitParamUrl(FetchComplaint, map["id" := Str(v)], "/complaints/", "id");
    LitParamUrl(FetchComplaintByTicketNumber, map["ticketNumber" := Str(v)], "/complaints/ticket/", "ticketNumber");
    LitParamLitUrl(FetchComplaintResponses, map["complaintId" := Str(v)], "/complaints/", "complaintId", "/responses");
  }

  /** The complaint tools that list complaints by owner, by category, or by state. */
  lemma ComplaintListUrls(v: string)
    ensures RequestUrl(FetchComplaintsByUser, map["userId" := Str(v)])
      == Base + "/complaints/user/" + v
    ensures RequestUrl(FetchComplaintsByCategory, map["category" := Str(v)])
      == Base + "/complaints/category/" + v
    ensures RequestUrl(FetchPendingComplaints, map[]) == Base + "/complaints/pending"
    ensures RequestUrl(FetchComplaintStats, map[]) == Base + "/complaints/stats"
  {
    LitParamUrl(FetchComplaintsByUser, map["userId" := Str(v)], "/complaints/user/", "userId");
    LitParamUrl(FetchComplaintsByCategory, map["category" := Str(v)], "/complaints/category/", "category");
    LitUrl(FetchPendingComplaints, map[], "/complaints/pending");
    LitUrl(FetchComplaintStats, map[], "/complaints/stats");
  }

  lemma ZeroOffsetPairs(args: Args)
    requires args == map["limit" := Num(10), "offset" := Num(0)]
    ensures QueryPairs(FetchAllComplaints.queryKeys, args) == [("limit", "10")]
  {
    var keys := FetchAllComplaints.queryKeys;
    assert keys == ["category", "status", "priority", "assignedTo", "limit", "offset"];
    assert Distinct(keys);
    assert !Sends(args, "offset");
    QuerySingleSent(keys, args, "limit");
    assert IntToString(10) == "10" by {
      assert NatToString(10) == NatToString(1) + [DigitChar(0)];
    }
  }

  lemma LimitTenText()
    ensures Serialize([("limit", "10")]) == "limit=10"
  {
    EncodeUnreservedIdentity("limit");
    EncodeUnreservedIdentity("10");
  }

  /** `limit: 10, offset: 0` on fetch-all-complaints: the zero offset is dropped. */
  lemma AllComplaintsZeroOffset()
    ensures RequestUrl(FetchAllComplaints, map["limit" := Num(10), "offset" := Num(0)])
      == Base + "/complaints" + "?" + "limit=10"
  {
    var args := map["limit" := Num(10), "offset" := Num(0)];
    ZeroOffsetPairs(args);
    LimitTenText();
    assert SplicePath(FetchAllComplaints.path, args) == "/complaints" by {
      assert SplicePath(FetchAllComplaints.path, args) == SplicePath([], args) + "/complaints";
    }
  }

  /** Path arguments are spliced without percent-encoding: a `?` inside a
      complaint id ends the path the backend sees and starts its query. */
  lemma PathArgumentNotEncoded()
    ensures RequestUrl(FetchComplaint, map["id" := Str("a?b")]) == Base + "/complaints/" + "a?b"
    ensures SplitTarget(RequestUrl(FetchComplaint, map["id" := Str("a?b")])) == (Base + "/complaints/a", "b")
  {
    LitParamUrl(FetchComplaint, map["id" := Str("a?b")], "/complaints/", "id");
    ComplaintQuestionSplit(RequestUrl(FetchComplaint, map["id" := Str("a?b")]));
  }

  lemma ComplaintQuestionSplit(url: string)
    requires url == Base + "/complaints/" + "a?b"
    ensures SplitTarget(url) == (Base + "/complaints/a", "b")
  {
    assert url == Base + "/complaints/a?b";
    assert '#' !in Base && '#' !in "/complaints/a?b";
    Lacks(Base, "/complaints/a?b", '#');
    SplitFirstWithout(url, '#');
    assert url == (Base + "/complaints/a") + ['?'] + "b";
    BaseHasNoQuestionMark("/complaints/a");
    SplitFirstAt(Base + "/complaints/a", '?', "b");
  }

  lemma LogsLimitFivePairs(args: Args)
    requires args == map["userId" := Str("u#1"), "limit" := Num(5)]
    ensures QueryPairs(FetchUserLogs.queryKeys, args) == [("limit", "5")]
  {
    assert FetchUserLogs.queryKeys == ["limit", "offset"];
    assert Distinct(FetchUserLogs.queryKeys);
    assert !Sends(args, "offset");
    QuerySingleSent(FetchUserLogs.queryKeys, args, "limit");
    assert IntToString(5) == "5";
  }

  lemma LogsHashUrl(args: Args)
    requires args == map["userId" := Str("u#1"), "limit" := Num(5)]
    ensures RequestUrl(FetchUserLogs, args) == Base + "/user-logs/user/" + "u#1" + "?" + "limit=5"
  {
    assert QuerySuffix(FetchUserLogs, args) == "?" + "limit=5" by {
      LogsLimitFivePairs(args);
      LimitFiveText();
    }
    UserLogsPath(args, "u#1");
  }

  lemma UserLogsPath(args: Args, v: string)
    requires "userId" in args && args["userId"] == Str(v)
    ensures SplicePath(FetchUserLogs.path, args) == "/user-logs/user/" + v
  {
    assert FetchUserLogs.path[..1] == [Lit("/user-logs/user/")];
    assert SplicePath(FetchUserLogs.path[..1], args) == SplicePath([], args) + "/user-logs/user/";
  }

  lemma LimitFiveText()
    ensures Serialize([("limit", "5")]) == "limit=5"
  {
    EncodeUnreservedIdentity("limit");
    EncodeUnreservedIdentity("5");
  }

  /** Everything from a `#` on is dropped before the query is looked for. */
  lemma FragmentCut(x: string, y: string)
    requires '#' !in x && '?' !in x
    ensures SplitTarget(x + ['#'] + y) == (x, "")
  {
    SplitFirstAt(x, '#', y);
    SplitFirstWithout(x, '?');
  }

  /** A `#` inside a user id starts a fragment: the backend sees the id cut
      short and no query at all, although `limit` was sent. */
  lemma UserLogsHashSplit(url: string)
    requires url == Base + "/user-logs/user/" + "u#1" + "?" + "limit=5"
    ensures SplitTarget(url) == (Base + "/user-logs/user/u", "")
  {
    var x := Base + "/user-logs/user/u";
    assert url == x + ['#'] + "1?limit=5";
    assert '#' !in Base && '#' !in "/user-logs/user/u";
    Lacks(Base, "/user-logs/user/u", '#');
    BaseHasNoQuestionMark("/user-logs/user/u");
    FragmentCut(x, "1?limit=5");
  }

  /** A `#` inside a user id starts a fragment: the backend sees the id cut
      short and no query at all, although `limit` was sent. */
  lemma HashInPathDropsQuery()
    ensures RequestUrl(FetchUserLogs, map["userId" := Str("u#1"), "limit" := Num(5)])
      == Base + "/user-logs/user/" + "u#1" + "?" + "limit=5"
    ensures SplitTarget(RequestUrl(FetchUserLogs, map["userId" := Str("u#1"), "limit" := Num(5)]))
      == (Base + "/user-logs/user/u", "")
  {
    LogsHashUrl(map["userId" := Str("u#1"), "limit" := Num(5)]);
    UserLogsHashSplit(RequestUrl(FetchUserLogs, map["userId" := Str("u#1"), "limit" := Num(5)]));
  }
}
