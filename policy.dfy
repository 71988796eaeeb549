/** The decisions the upstream session makes from plain values: whether the
    configured API key is usable, which message a transport error is reported
    with, and whether a closed upstream connection is retried or reported. */
module Policy {
  import opened Wrappers
  import opened Text

  // ---------------------------------------------------------------------------
  // API key shape (server.js:49-56)

  const MissingKeyMessage := "GEMINI_API_KEY not found in environment variables"
  const BadKeyFormatMessage := "Invalid GEMINI_API_KEY format - should start with \"AI\""

  /** The message of the error `connect` throws for this key, or `None` when the
      key passes both checks. An empty key counts as missing, as `!apiKey` does. */
  function KeyProblem(key: Option<string>): (r: Option<string>)
    ensures r.None? <==> key.Some? && |key.value| >= 2 && key.value[0] == 'A' && key.value[1] == 'I'
    ensures r == Some(MissingKeyMessage) <==> key.None? || key.value == ""
    ensures r.Some? ==> r.value == MissingKeyMessage || r.value == BadKeyFormatMessage
  {
    if key.None? || key.value == "" then Some(MissingKeyMessage)
    else if !StartsWith(key.value, "AI") then Some(BadKeyFormatMessage)
    else None
  }

  // ---------------------------------------------------------------------------
  // Transport error classification (server.js:90-101)

  const InvalidKeyMessage := "Invalid API key - check your GEMINI_API_KEY"
  const AccessDeniedMessage := "API access denied - check permissions"
  const RateLimitedMessage := "Rate limit exceeded - please wait"
  const UnavailableMessage := "AI service temporarily unavailable"
  const ConnectionFailedMessage := "Connection to AI service failed"

  /** The message reported for a transport error whose `message` property is
      `message` (absent when `None`): the first matching substring test wins. */
  function TransportErrorMessage(message: Option<string>): (r: string)
    ensures r == InvalidKeyMessage <==>
      message.Some? && (Contains(message.value, "401") || Contains(message.value, "Unauthorized"))
    ensures r == ConnectionFailedMessage <==>
      message.None? ||
      !(Contains(message.value, "401") || Contains(message.value, "Unauthorized") || Contains(message.value, "403")
        || Contains(message.value, "429") || Contains(message.value, "500"))
  {
    if message.None? || message.value == "" then ConnectionFailedMessage
    else
      var m := message.value;
      if Contains(m, "401") || Contains(m, "Unauthorized") then InvalidKeyMessage
      else if Contains(m, "403") then AccessDeniedMessage
      else if Contains(m, "429") then RateLimitedMessage
      else if Contains(m, "500") then UnavailableMessage
      else ConnectionFailedMessage
  }

  /** One row of the classification table: any of `patterns` selects `message`. */
  datatype Rule = Rule(patterns: seq<string>, message: string)

  /** The classification written as a table, in priority order. */
  const ErrorRules: seq<Rule> := [
    Rule(["401", "Unauthorized"], InvalidKeyMessage),
    Rule(["403"], AccessDeniedMessage),
    Rule(["429"], RateLimitedMessage),
    Rule(["500"], UnavailableMessage)
  ]

  predicate MatchesAny(m: string, patterns: seq<string>)
  {
    exists k :: 0 <= k < |patterns| && Contains(m, patterns[k])
  }

  /** The message of the first rule that matches `m`, or `fallback`. */
  function FirstMatch(rules: seq<Rule>, m: string, fallback: string): (r: string)
    ensures r == fallback || exists k :: 0 <= k < |rules| && r == rules[k].message
    decreases |rules|
  {
    if rules == [] then fallback
    else if MatchesAny(m, rules[0].patterns) then rules[0].message
    else
      var r := FirstMatch(rules[1..], m, fallback);
      assert r != fallback ==> exists k :: 0 <= k < |rules| && r == rules[k].message by {
        if r != fallback {
          var k :| 0 <= k < |rules[1..]| && r == rules[1..][k].message;
          assert r == rules[k + 1].message;
        }
      }
      r
  }

  /** A rule wins exactly when it matches and no earlier rule does. */
  lemma {:induction false} FirstMatchWinner(rules: seq<Rule>, m: string, fallback: string, i: nat)
    requires i < |rules|
    requires MatchesAny(m, rules[i].patterns)
    requires forall k :: 0 <= k < i ==> !MatchesAny(m, rules[k].patterns)
    ensures FirstMatch(rules, m, fallback) == rules[i].message
    decreases i
  {
    if i > 0 {
      assert !MatchesAny(m, rules[0].patterns);
      FirstMatchWinner(rules[1..], m, fallback, i - 1);
    }
  }

  /** When no rule matches, the fallback is reported. */
  lemma {:induction false} FirstMatchNone(rules: seq<Rule>, m: string, fallback: string)
    requires forall k :: 0 <= k < |rules| ==> !MatchesAny(m, rules[k].patterns)
    ensures FirstMatch(rules, m, fallback) == fallback
    decreases |rules|
  {
    if rules != [] {
      assert !MatchesAny(m, rules[0].patterns);
      FirstMatchNone(rules[1..], m, fallback);
    }
  }

  /** The if/else chain of server.js:90-101 is the table read top to bottom. */
  lemma TransportErrorByTable(message: Option<string>)
    ensures TransportErrorMessage(message) ==
      if message.None? then ConnectionFailedMessage
      else FirstMatch(ErrorRules, message.value, ConnectionFailedMessage)
  {
    if message.Some? {
      var m := message.value;
      assert MatchesAny(m, ["401", "Unauthorized"]) <==> Contains(m, "401") || Contains(m, "Unauthorized") by {
        var p := ["401", "Unauthorized"];
        assert p[0] == "401" && p[1] == "Unauthorized";
      }
      assert MatchesAny(m, ["403"]) <==> Contains(m, "403") by { assert ["403"][0] == "403"; }
      assert MatchesAny(m, ["429"]) <==> Contains(m, "429") by { assert ["429"][0] == "429"; }
      assert MatchesAny(m, ["500"]) <==> Contains(m, "500") by { assert ["500"][0] == "500"; }
      if m == "" {
        assert !Contains(m, "401") && !Contains(m, "Unauthorized");
        assert !Contains(m, "403") && !Contains(m, "429") && !Contains(m, "500");
        FirstMatchNone(ErrorRules, m, ConnectionFailedMessage);
      } else if MatchesAny(m, ErrorRules[0].patterns) {
        FirstMatchWinner(ErrorRules, m, ConnectionFailedMessage, 0);
      } else if MatchesAny(m, ErrorRules[1].patterns) {
        FirstMatchWinner(ErrorRules, m, ConnectionFailedMessage, 1);
      } else if MatchesAny(m, ErrorRules[2].patterns) {
        FirstMatchWinner(ErrorRules, m, ConnectionFailedMessage, 2);
      } else if MatchesAny(m, ErrorRules[3].patterns) {
        FirstMatchWinner(ErrorRules, m, ConnectionFailedMessage, 3);
      } else {
        FirstMatchNone(ErrorRules, m, ConnectionFailedMessage);
      }
    }
  }

  /** The reported message is always one of the five fixed messages, and the
      generic one whenever the error carries no message. */
  lemma TransportErrorMessageRange(message: Option<string>)
    ensures TransportErrorMessage(message) in
      {InvalidKeyMessage, AccessDeniedMessage, RateLimitedMessage, UnavailableMessage, ConnectionFailedMessage}
    ensures message.None? ==> TransportErrorMessage(message) == ConnectionFailedMessage
  {
  }

  /** The `ws` library reports a rejected handshake as
      'Unexpected server response: <status>'; a 401 status names the key. */
  lemma Handshake401Example()
    ensures TransportErrorMessage(Some("Unexpected server response: 401")) == InvalidKeyMessage
  {
    var s := "Unexpected server response: 401";
    assert s[28..31] == "401";
    ContainsAt(s, "401", 28);
  }

  /** The message each status code of the table selects. */
  function StatusMessage(status: string): string
  {
    if status == "401" then InvalidKeyMessage
    else if status == "403" then AccessDeniedMessage
    else if status == "429" then RateLimitedMessage
    else if status == "500" then UnavailableMessage
    else ConnectionFailedMessage
  }

  /** A message that ends in one of the four statuses, after text that holds no
      '4', '5' or 'U' (so no other pattern can start there), is reported with
      that status's message. */
  lemma {:induction false} StatusAfterPlainText(head: string, status: string)
    requires '4' !in head && '5' !in head && 'U' !in head
    requires status in ["401", "403", "429", "500"]
    ensures TransportErrorMessage(Some(head + status)) == StatusMessage(status)
  {
    var s := head + status;
    assert s[|head|..|head| + 3] == status;
    ContainsAt(s, status, |head|);
    SkipPrefix(head, status, "401");
    SkipPrefix(head, status, "Unauthorized");
    SkipPrefix(head, status, "403");
    SkipPrefix(head, status, "429");
    NoRoom(status, "Unauthorized");
    if status != "401" { NoRoom(status, "401"); }
    if status != "403" { NoRoom(status, "403"); }
    if status != "429" { NoRoom(status, "429"); }
  }

  /** A message with no '4', '5' or 'U' falls back to the generic text. */
  lemma {:induction false} NoStatusFallsBack(m: string)
    requires '4' !in m && '5' !in m && 'U' !in m
    ensures TransportErrorMessage(Some(m)) == ConnectionFailedMessage
  {
    assert m == m + "";
    NoRoom("", "401");
    NoRoom("", "403");
    NoRoom("", "429");
    NoRoom("", "500");
    NoRoom("", "Unauthorized");
    SkipPrefix(m, "", "401");
    SkipPrefix(m, "", "Unauthorized");
    SkipPrefix(m, "", "403");
    SkipPrefix(m, "", "429");
    SkipPrefix(m, "", "500");
  }

  /** A message that mentions several statuses is classified by the earliest
      rule, not by the earliest position in the text. */
  lemma FirstRuleWinsOverPosition()
    ensures TransportErrorMessage(Some("500 after 403")) == AccessDeniedMessage
  {
    var head, tail := "500 after ", "403";
    var s := head + tail;
    assert s[10..13] == "403";
    ContainsAt(s, "403", 10);
    SkipPrefix(head, tail, "401");
    NoRoom(tail, "401");
    SkipPrefix(head, tail, "Unauthorized");
    NoRoom(tail, "Unauthorized");
    assert s == "500 after 403";
  }

  // ---------------------------------------------------------------------------
  // Reconnect policy (server.js:106-118)

  const MaxReconnectAttempts: nat := 3
  const NormalClosure: nat := 1000

  /** What the close handler does after it has cleared `isConnected`. */
  datatype CloseOutcome = Reconnect | Report(message: string)

  /** The text of the terminal error: `Connection closed: ${code} ${reason}`. */
  function ClosedMessage(code: nat, reason: string): (r: string)
    ensures StartsWith(r, "Connection closed: ")
  {
    "Connection closed: " + NatToString(code) + " " + reason
  }

  /** The close code and the reason can be read back from the terminal error text. */
  lemma ClosedMessageNamesCode(code: nat, reason: string)
    ensures var r := ClosedMessage(code, reason);
            var digits := NatToString(code);
            |r| > 19 + |digits| && r[19..19 + |digits|] == digits && r[19 + |digits|] == ' '
            && ParseDecimal(r[19..19 + |digits|]) == code
            && r[20 + |digits|..] == reason
  {
    ParseNatToString(code);
  }

  /** A run of digits followed by a space can be split off only one way. */
  lemma {:induction false} DigitsThenSpace(p: string, d1: string, r1: string, d2: string, r2: string)
    requires forall k :: 0 <= k < |d1| ==> '0' <= d1[k] <= '9'
    requires forall k :: 0 <= k < |d2| ==> '0' <= d2[k] <= '9'
    requires p + d1 + " " + r1 == p + d2 + " " + r2
    ensures d1 == d2 && r1 == r2
  {
    var m := p + d1 + " " + r1;
    var n := |p|;
    assert m[n + |d1|] == ' ';
    assert (p + d2 + " " + r2)[n + |d2|] == ' ';
    // a digit never stands where the other text has its space
    assert |d1| == |d2|;
    assert d1 == m[n..n + |d1|] == d2;
    assert r1 == m[n + |d1| + 1..] == r2;
  }

  /** Two close events are reported with the same text only when they had the
      same code and the same reason. */
  lemma ClosedMessageInjective(c1: nat, r1: string, c2: nat, r2: string)
    requires ClosedMessage(c1, r1) == ClosedMessage(c2, r2)
    ensures c1 == c2 && r1 == r2
  {
    DigitsThenSpace("Connection closed: ", NatToString(c1), r1, NatToString(c2), r2);
    NatToStringInjective(c1, c2);
  }

  /** The decision of server.js:111-117 for one close event, given the attempt counter. */
  function CloseOutcomeOf(attempts: nat, code: nat, reason: string): (r: CloseOutcome)
    ensures r.Reconnect? <==> code != NormalClosure && attempts < MaxReconnectAttempts
    ensures code == NormalClosure ==> r == Report(ClosedMessage(code, reason))
  {
    if code != NormalClosure && attempts < MaxReconnectAttempts then Reconnect
    else Report(ClosedMessage(code, reason))
  }

  datatype Close = Close(code: nat, reason: string)

  /** The effect of a run of close events with no successful open between them
      (an open resets the counter): the final counter, how many reconnects were
      scheduled and the terminal errors reported, in order. */
  datatype RunResult = RunResult(attempts: nat, reconnects: nat, reports: seq<string>)

  function CloseRun(attempts: nat, closes: seq<Close>): RunResult
    decreases |closes|
  {
    if closes == [] then RunResult(attempts, 0, [])
    else
      var c := closes[0];
      match CloseOutcomeOf(attempts, c.code, c.reason)
      case Reconnect =>
        var r := CloseRun(attempts + 1, closes[1..]);
        RunResult(r.attempts, r.reconnects + 1, r.reports)
      case Report(m) =>
        var r := CloseRun(attempts, closes[1..]);
        RunResult(r.attempts, r.reconnects, [m] + r.reports)
  }

  /** Every close either schedules one reconnect or reports one error, and the
      counter never passes the limit. */
  lemma {:induction false} CloseRunBounded(attempts: nat, closes: seq<Close>)
    requires attempts <= MaxReconnectAttempts
    ensures var r := CloseRun(attempts, closes);
            && r.attempts == attempts + r.reconnects
            && r.attempts <= MaxReconnectAttempts
            && r.reconnects + |r.reports| == |closes|
    decreases |closes|
  {
    if closes != [] {
      var c := closes[0];
      if CloseOutcomeOf(attempts, c.code, c.reason).Reconnect? {
        CloseRunBounded(attempts + 1, closes[1..]);
      } else {
        CloseRunBounded(attempts, closes[1..]);
      }
    }
  }

  predicate AllAbnormal(closes: seq<Close>)
  {
    forall k :: 0 <= k < |closes| ==> closes[k].code != NormalClosure
  }

  function ClosedMessages(closes: seq<Close>): (r: seq<string>)
    ensures |r| == |closes|
    decreases |closes|
  {
    if closes == [] then [] else [ClosedMessage(closes[0].code, closes[0].reason)] + ClosedMessages(closes[1..])
  }

  function Min(a: nat, b: nat): nat { if a <= b then a else b }

  /** Consecutive abnormal closes: the first `3 - attempts` schedule reconnects
      and the close handler reports nothing for them; every later one reports its own close code and reason. */
  lemma {:induction false} AbnormalCloseRun(attempts: nat, closes: seq<Close>)
    requires attempts <= MaxReconnectAttempts
    requires AllAbnormal(closes)
    ensures var n := Min(|closes|, MaxReconnectAttempts - attempts);
            var r := CloseRun(attempts, closes);
            r.reconnects == n && r.reports == ClosedMessages(closes[n..])
    decreases |closes|
  {
    if closes != [] {
      var c := closes[0];
      assert c.code != NormalClosure;
      assert AllAbnormal(closes[1..]) by {
        forall k | 0 <= k < |closes[1..]| ensures closes[1..][k].code != NormalClosure {
          assert closes[1..][k] == closes[k + 1];
        }
      }
      if attempts < MaxReconnectAttempts {
        AbnormalCloseRun(attempts + 1, closes[1..]);
        var n := Min(|closes|, MaxReconnectAttempts - attempts);
        assert closes[1..][n - 1..] == closes[n..];
      } else {
        AbnormalCloseRun(attempts, closes[1..]);
        assert closes[1..][0..] == closes[1..];
        assert closes[0..] == closes;
      }
    }
  }

  /** From a freshly opened session, three abnormal closes in a row are retried
      and the close handler reports nothing for them; the fourth reports exactly one error naming its code. */
  lemma FourAbnormalCloses(reason: string)
    ensures var c := Close(1006, reason);
            CloseRun(0, [c, c, c, c]) == RunResult(3, 3, ["Connection closed: 1006 " + reason])
  {
    var c := Close(1006, reason);
    AbnormalCloseRun(0, [c, c, c, c]);
    CloseRunBounded(0, [c, c, c, c]);
    assert [c, c, c, c][3..] == [c];
    assert [c][1..] == [];
    assert ClosedMessages([c]) == [ClosedMessage(1006, reason)];
    assert NatToString(1006) == "1006" by {
      assert NatToString(1) == "1";
      assert NatToString(10) == NatToString(1) + "0";
      assert NatToString(100) == NatToString(10) + "0";
      assert NatToString(1006) == NatToString(100) + "6";
    }
    assert ClosedMessage(1006, reason) == "Connection closed: 1006 " + reason;
  }
}
