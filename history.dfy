/** The fold that turns the JSON array printed by `llm logs list --json`
    into conversations (src/main.rs:816-876). Each entry arrives already
    decoded, with an absent field defaulted to "". */
module History {
  import opened Entities

  datatype LogRecord = LogRecord(conversationId: string, conversationName: string, prompt: string, response: string)

  /** The two messages one entry contributes. */
  function Exchange(e: LogRecord): seq<Message> {
    [Message(User, e.prompt), Message(Assistant, e.response)]
  }

  /** All entries' messages, in array order. */
  function Transcript(logs: seq<LogRecord>): (t: seq<Message>)
    ensures |t| == 2 * |logs|
  {
    if logs == [] then [] else Exchange(logs[0]) + Transcript(logs[1..])
  }

  function Reverse<T>(s: seq<T>): (r: seq<T>)
    ensures |r| == |s|
    ensures forall i :: 0 <= i < |s| ==> r[i] == s[|s| - 1 - i]
  {
    if s == [] then [] else Reverse(s[1..]) + [s[0]]
  }

  /** Reference grouping: one conversation per maximal run of consecutive
      entries with the same id, in array order; a run keeps the name of
      the entry that closes it. */
  function Runs(logs: seq<LogRecord>): seq<Conversation> {
    if logs == [] then []
    else
      var rest := Runs(logs[1..]);
      var e := logs[0];
      if rest != [] && rest[0].id == e.conversationId then
        [rest[0].(messages := Exchange(e) + rest[0].messages)] + rest[1..]
      else
        [Conversation(e.conversationId, e.conversationName, Exchange(e))] + rest
  }

  /** `convs` cuts `logs` into consecutive blocks: each conversation covers
      the next |messages|/2 entries (at least one), all of them carrying its
      id, its name is the last one's name and its messages are theirs. */
  predicate CutsInto(convs: seq<Conversation>, logs: seq<LogRecord>)
    decreases |convs|
  {
    if convs == [] then logs == []
    else
      var m := |convs[0].messages| / 2;
      && 1 <= m <= |logs|
      && (forall j :: 0 <= j < m ==> logs[j].conversationId == convs[0].id)
      && convs[0].name == logs[m - 1].conversationName
      && convs[0].messages == Transcript(logs[..m])
      && CutsInto(convs[1..], logs[m..])
  }

  /** No two neighbouring conversations share an id, so every block is a
      maximal run. */
  predicate NeighboursDiffer(convs: seq<Conversation>) {
    forall i :: 0 < i < |convs| ==> convs[i - 1].id != convs[i].id
  }

  lemma {:induction false} RunsAreMaximalRuns(logs: seq<LogRecord>)
    ensures CutsInto(Runs(logs), logs)
    ensures NeighboursDiffer(Runs(logs))
  {
    if logs != [] {
      var e, rest := logs[0], logs[1..];
      var r := Runs(rest);
      RunsAreMaximalRuns(rest);
      if r != [] && r[0].id == e.conversationId {
        var g := r[0].(messages := Exchange(e) + r[0].messages);
        var m := |r[0].messages| / 2;
        assert |g.messages| / 2 == m + 1;
        assert logs[..m + 1] == [e] + rest[..m];
        assert logs[..m + 1][1..] == rest[..m];
        assert logs[m + 1..] == rest[m..];
        assert ([g] + r[1..])[1..] == r[1..];
      } else {
        assert logs[..1] == [e];
        assert logs[1..] == rest;
        assert ([Conversation(e.conversationId, e.conversationName, Exchange(e))] + r)[1..] == r;
      }
    }
  }

  /** Runs is the only cut of `logs` into maximal runs. */
  lemma {:induction false} MaximalRunsAreRuns(convs: seq<Conversation>, logs: seq<LogRecord>)
    requires CutsInto(convs, logs) && NeighboursDiffer(convs)
    ensures convs == Runs(logs)
    decreases |logs|
  {
    if convs != [] {
      var e, rest := logs[0], logs[1..];
      var g := convs[0];
      var m := |g.messages| / 2;
      assert logs[..m] == [e] + rest[..m - 1];
      assert logs[..m][1..] == rest[..m - 1];
      if m == 1 {
        assert logs[m..] == rest;
        MaximalRunsAreRuns(convs[1..], rest);
        assert g == Conversation(e.conversationId, e.conversationName, Exchange(e));
        assert convs == [g] + convs[1..];
      } else {
        var g' := g.(messages := g.messages[2..]);
        var convs' := [g'] + convs[1..];
        assert g.messages == Exchange(e) + Transcript(rest[..m - 1]);
        assert g'.messages == Transcript(rest[..m - 1]);
        assert |g'.messages| / 2 == m - 1;
        assert rest[m - 1..] == logs[m..];
        assert convs'[1..] == convs[1..];
        assert CutsInto(convs', rest);
        MaximalRunsAreRuns(convs', rest);
        assert Exchange(e) + g'.messages == g.messages;
      }
    }
  }

  /** The messages of all conversations, concatenated. */
  function Flatten(convs: seq<Conversation>): seq<Message> {
    if convs == [] then [] else convs[0].messages + Flatten(convs[1..])
  }

  /** Grouping neither drops, duplicates nor reorders a message: read run
      by run, the messages are the entries' exchanges in array order (so
      there are 2 * |logs| of them). */
  lemma {:induction false} RunsKeepTranscript(logs: seq<LogRecord>)
    ensures Flatten(Runs(logs)) == Transcript(logs)
  {
    if logs != [] {
      var r := Runs(logs[1..]);
      RunsKeepTranscript(logs[1..]);
      if r != [] && r[0].id == logs[0].conversationId {
        var g := r[0].(messages := Exchange(logs[0]) + r[0].messages);
        assert ([g] + r[1..])[1..] == r[1..];
      } else {
        var g := Conversation(logs[0].conversationId, logs[0].conversationName, Exchange(logs[0]));
        assert ([g] + r)[1..] == r;
      }
    }
  }

  /** A user message followed by an assistant message, repeated at least
      once. */
  predicate Alternating(ms: seq<Message>) {
    && |ms| > 0 && |ms| % 2 == 0
    && forall i :: 0 <= i < |ms| ==> ms[i].role == (if i % 2 == 0 then User else Assistant)
  }

  lemma {:induction false} RunsAlternate(logs: seq<LogRecord>)
    ensures forall c :: c in Runs(logs) ==> Alternating(c.messages)
  {
    if logs != [] {
      var r := Runs(logs[1..]);
      RunsAlternate(logs[1..]);
      if r != [] && r[0].id == logs[0].conversationId {
        var ms := Exchange(logs[0]) + r[0].messages;
        assert r[0] in r;
        assert forall i :: 2 <= i < |ms| ==> ms[i] == r[0].messages[i - 2];
        assert Alternating(ms);
        assert forall c :: c in r[1..] ==> c in r;
      }
    }
  }

  lemma SnocInjective<T>(a: seq<T>, x: T, b: seq<T>, y: T)
    requires a + [x] == b + [y]
    ensures a == b && x == y
  {
    assert |a| == |b|;
    assert a == (a + [x])[..|a|] && b == (b + [y])[..|b|];
    assert x == (a + [x])[|a|] && y == (b + [y])[|b|];
  }

  /** `load_conversations` after the JSON parse; `None` stands for a
      payload that is not a JSON array. Entries are visited from last to
      first; a visited entry joins the open conversation when the ids match
      (its exchange inserted at positions 0 and 1), otherwise the open
      conversation is closed and a new one opened. */
  method LoadConversations(payload: Option<seq<LogRecord>>) returns (conversations: seq<Conversation>)
    ensures payload.None? ==> conversations == []
    ensures payload.Some? ==> conversations == Reverse(Runs(payload.value))
  {
    conversations := [];
    var current: Option<Conversation> := None;
    if payload.Some? {
      var logs := payload.value;
      var k := |logs|;
      while k > 0
        invariant 0 <= k <= |logs|
        invariant current.None? <==> k == |logs|
        invariant conversations + (if current.Some? then [current.value] else []) == Reverse(Runs(logs[k..]))
      {
        ghost var r := Runs(logs[k..]);
        k := k - 1;
        var log := logs[k];
        assert logs[k..][1..] == logs[k + 1..];
        if current.Some? {
          assert Reverse(r) == Reverse(r[1..]) + [r[0]];
          SnocInjective(conversations, current.value, Reverse(r[1..]), r[0]);
        } else {
          assert r == [];
        }
        if current.Some? && current.value.id == log.conversationId {
          var messages := current.value.messages;
          messages := [Message(User, log.prompt)] + messages;
          messages := messages[..1] + [Message(Assistant, log.response)] + messages[1..];
          assert messages == Exchange(log) + current.value.messages;
          current := Some(current.value.(messages := messages));
          assert Runs(logs[k..]) == [current.value] + r[1..];
          assert ([current.value] + r[1..])[1..] == r[1..];
          assert Reverse([current.value] + r[1..]) == Reverse(r[1..]) + [current.value];
        } else {
          if current.Some? {
            conversations := conversations + [current.value];
          }
          current := Some(Conversation(log.conversationId, log.conversationName,
                                       [Message(User, log.prompt), Message(Assistant, log.response)]));
          assert Runs(logs[k..]) == [current.value] + r;
          assert ([current.value] + r)[1..] == r;
          assert Reverse([current.value] + r) == Reverse(r) + [current.value];
        }
      }
      assert logs[0..] == logs;
    }
    if current.Some? {
      conversations := conversations + [current.value];
    }
  }
}
