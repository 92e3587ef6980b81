/** Forking a thread at a message: what is kept, and when a fork is allowed. */
module ForkSlicing {
  import opened Wrappers

  datatype Role = Ai | Tool | Other

  /** A message as the fork sees it; ids may be missing or empty, and an empty call id does not count. */
  datatype Message = Message(id: Option<string>, role: Role, toolCalls: seq<Option<string>>, callId: Option<string>)

  function CallIds(m: Message): set<string> {
    set c | c in m.toolCalls && c.Some? && c.value != "" :: c.value
  }

  /** Index of the first message with the id; the length if there is none. */
  function Find(history: seq<Message>, id: string): (i: nat)
    ensures i <= |history|
    ensures i < |history| ==> history[i].id == Some(id)
    ensures forall j :: 0 <= j < i ==> history[j].id != Some(id)
  {
    if history == [] || history[0].id == Some(id) then 0 else 1 + Find(history[1..], id)
  }

  /** The message is a tool result answering one of the calls. */
  predicate Answers(m: Message, calls: set<string>) {
    m.role.Tool? && m.callId.Some? && m.callId.value != "" && m.callId.value in calls
  }

  // ---------------------------------------------------------------- the reference reading

  /** The messages history[from..to] are tool results answering exactly the given calls, each once. */
  ghost predicate Answered(history: seq<Message>, from: nat, to: nat, calls: set<string>)
    requires from <= to <= |history|
  {
    && (forall k :: from <= k < to ==> Answers(history[k], calls))
    && (forall j, k :: from <= j < k < to ==> history[j].callId != history[k].callId)
    && (forall c :: c in calls ==> exists k :: from <= k < to && history[k].callId == Some(c))
  }

  ghost predicate AnsweredFrom(history: seq<Message>, from: nat, calls: set<string>) {
    exists to :: from <= to <= |history| && Answered(history, from, to, calls)
  }

  /** The message's calls are answered directly after it. */
  ghost predicate AnsweredAfter(history: seq<Message>, i: nat)
    requires i < |history|
  {
    AnsweredFrom(history, i + 1, CallIds(history[i]))
  }

  // ---------------------------------------------------------------- the loop both functions run

  /** Walks over the answers from `from`, at most once per call: where it stops, and the calls still open. */
  function Walk(history: seq<Message>, from: nat, calls: set<string>): (r: (nat, set<string>))
    requires from <= |history|
    ensures from <= r.0 <= |history|
    decreases |history| - from
  {
    if calls != {} && from < |history| && Answers(history[from], calls) then
      Walk(history, from + 1, calls - {history[from].callId.value})
    else (from, calls)
  }

  method WalkAnswers(history: seq<Message>, from: nat, calls: set<string>) returns (end: nat, openCalls: set<string>)
    requires from <= |history|
    ensures (end, openCalls) == Walk(history, from, calls)
  {
    end, openCalls := from, calls;
    while openCalls != {} && end < |history|
      invariant from <= end <= |history|
      invariant Walk(history, end, openCalls) == Walk(history, from, calls)
      decreases |history| - end
    {
      var next := history[end];
      if next.role.Tool? {
        var tcid := next.callId;
        if tcid.Some? && tcid.value != "" && tcid.value in openCalls {
          openCalls := openCalls - {tcid.value};
          end := end + 1;
          continue;
        }
      }
      break;
    }
  }

  /**
    The walk closes every call exactly when they are answered directly after, and then stops right behind the answers.
   */
  lemma {:induction false} WalkCloses(history: seq<Message>, from: nat, calls: set<string>)
    requires from <= |history|
    ensures Walk(history, from, calls).1 == {} ==> Answered(history, from, Walk(history, from, calls).0, calls)
    ensures forall to :: from <= to <= |history| && Answered(history, from, to, calls) ==>
      Walk(history, from, calls) == (to, {})
    decreases |history| - from
  {
    if calls != {} && from < |history| && Answers(history[from], calls) {
      var c := history[from].callId.value;
      WalkCloses(history, from + 1, calls - {c});
      forall to | from <= to <= |history| && Answered(history, from, to, calls)
        ensures to > from && Answered(history, from + 1, to, calls - {c})
      {
        var x :| x in calls;
        assert exists k :: from <= k < to && history[k].callId == Some(x);
        assert from < to && history[from].callId == Some(c);
      }
      if Walk(history, from, calls).1 == {} {
        AnsweredExtends(history, from, Walk(history, from, calls).0, calls);
      }
    } else {
      forall to | from <= to <= |history| && Answered(history, from, to, calls) ensures calls == {} && to == from {
        if from < to {
          FirstAnswers(history, from, to, calls);
          assert false;
        }
        assert forall c :: c !in calls;
      }
    }
  }

  lemma FirstAnswers(history: seq<Message>, from: nat, to: nat, calls: set<string>)
    requires from < to <= |history| && Answered(history, from, to, calls)
    ensures Answers(history[from], calls)
  {
  }

  lemma AnsweredExtends(history: seq<Message>, from: nat, to: nat, calls: set<string>)
    requires from < to <= |history| && Answers(history[from], calls)
    requires Answered(history, from + 1, to, calls - {history[from].callId.value})
    ensures Answered(history, from, to, calls)
  {
    forall c | c in calls ensures exists k :: from <= k < to && history[k].callId == Some(c) {
      if c == history[from].callId.value {
        assert history[from].callId == Some(c);
      } else {
        assert c in calls - {history[from].callId.value};
        var k :| from + 1 <= k < to && history[k].callId == Some(c);
      }
    }
  }

  // ---------------------------------------------------------------- slicing

  function SliceEnd(history: seq<Message>, i: nat): (end: nat)
    requires i < |history|
    ensures end <= |history|
  {
    var (end, openCalls) := Walk(history, i + 1, if history[i].role.Ai? then CallIds(history[i]) else {});
    if openCalls != {} then i else end
  }

  function Slice(history: seq<Message>, id: string): seq<Message> {
    var i := Find(history, id);
    if i == |history| then [] else history[..SliceEnd(history, i)]
  }

  method SliceForFork(history: seq<Message>, id: string) returns (kept: seq<Message>)
    ensures kept == Slice(history, id)
  {
    var idx := Find(history, id);
    if idx == |history| {
      return [];
    }
    var boundary := history[idx];
    var openCalls: set<string> := {};
    if boundary.role.Ai? {
      openCalls := CallIds(boundary);
    }
    var end;
    end, openCalls := WalkAnswers(history, idx + 1, openCalls);
    if openCalls != {} {
      return history[..idx];
    }
    return history[..end];
  }

  datatype BoundaryError = NotFound | NotAssistant | MidToolCall

  method ForkBoundaryError(history: seq<Message>, id: string) returns (error: Option<BoundaryError>)
    ensures error == BoundaryErrorOf(history, id)
  {
    var idx := Find(history, id);
    if idx == |history| {
      return Some(NotFound);
    }
    var boundary := history[idx];
    if !boundary.role.Ai? {
      return Some(NotAssistant);
    }
    var end, openCalls := WalkAnswers(history, idx + 1, CallIds(boundary));
    if openCalls != {} {
      return Some(MidToolCall);
    }
    return None;
  }

  function BoundaryErrorOf(history: seq<Message>, id: string): Option<BoundaryError> {
    var i := Find(history, id);
    if i == |history| then Some(NotFound)
    else if !history[i].role.Ai? then Some(NotAssistant)
    else if Walk(history, i + 1, CallIds(history[i])).1 != {} then Some(MidToolCall)
    else None
  }

  // ---------------------------------------------------------------- what forking promises

  /** A fork is allowed exactly when the message is found, is the assistant's, and survives the slice. */
  lemma AllowedExactly(history: seq<Message>, id: string)
    ensures BoundaryErrorOf(history, id).None? <==>
      var i := Find(history, id); i < |history| && history[i].role.Ai? && i < |Slice(history, id)|
  {
  }

  /**
    Said without the walk: found, the assistant's, and each of its calls answered once directly after it. What is kept
    is then the history up to just behind those answers.
   */
  lemma AllowedMeansAnswered(history: seq<Message>, id: string)
    ensures BoundaryErrorOf(history, id).None? <==>
      var i := Find(history, id); i < |history| && history[i].role.Ai? && AnsweredAfter(history, i)
    ensures BoundaryErrorOf(history, id).None? ==>
      var i, end := Find(history, id), |Slice(history, id)|;
      i < end <= |history| && Slice(history, id) == history[..end]
      && Answered(history, i + 1, end, CallIds(history[i]))
  {
    var i := Find(history, id);
    if i < |history| {
      WalkCloses(history, i + 1, CallIds(history[i]));
    }
  }

  /** Why a fork is refused: no such message, not the assistant's, or a call of its not answered directly after it. */
  lemma ErrorExactly(history: seq<Message>, id: string)
    ensures var error := BoundaryErrorOf(history, id);
      if forall m :: m in history ==> m.id != Some(id) then error == Some(NotFound)
      else
        var i := Find(history, id);
        && i < |history|
        && (error == Some(NotAssistant) <==> !history[i].role.Ai?)
        && (error == Some(MidToolCall) <==> history[i].role.Ai? && !AnsweredAfter(history, i))
        && error != Some(NotFound)
  {
    AllowedMeansAnswered(history, id);
    var i := Find(history, id);
    if i < |history| {
      assert history[i] in history;
    }
  }

  /**
    What a slice keeps, allowed or not: nothing without the message; else the history through it, and through the
    answers to its calls; or up to just before it if it makes calls that are not answered there.
   */
  lemma SliceExactly(history: seq<Message>, id: string)
    ensures var i := Find(history, id);
      if i == |history| then Slice(history, id) == []
      else if !history[i].role.Ai? then Slice(history, id) == history[..i + 1]
      else if !AnsweredAfter(history, i) then Slice(history, id) == history[..i]
      else
        var end := |Slice(history, id)|;
        && i < end <= |history| && Slice(history, id) == history[..end]
        && Answered(history, i + 1, end, CallIds(history[i]))
  {
    var i := Find(history, id);
    if i < |history| && history[i].role.Ai? {
      WalkCloses(history, i + 1, CallIds(history[i]));
    }
  }

  /** Every call made in a list of messages is answered in it. */
  ghost predicate AllAnswered(messages: seq<Message>) {
    forall i, c :: 0 <= i < |messages| && messages[i].role.Ai? && c in CallIds(messages[i]) ==>
      exists k :: i < k < |messages| && messages[k].role.Tool? && messages[k].callId == Some(c)
  }

  lemma AnswerAmong(history: seq<Message>, from: nat, to: nat, calls: set<string>, c: string)
    requires from <= to <= |history| && Answered(history, from, to, calls) && c in calls
    ensures exists k :: from <= k < to && history[k].role.Tool? && history[k].callId == Some(c)
  {
    var k :| from <= k < to && history[k].callId == Some(c);
    assert Answers(history[k], calls);
  }

  /** An assistant turn is not among the answers. */
  lemma NotAmong(history: seq<Message>, from: nat, to: nat, calls: set<string>, j: nat)
    requires from <= to <= |history| && Answered(history, from, to, calls) && j < |history| && history[j].role.Ai?
    ensures j < from || to <= j
  {
    assert forall k :: from <= k < to ==> !history[k].role.Ai?;
  }

  /** The message at j has all its calls answered before the boundary i, or among the boundary's own calls. */
  ghost predicate CoveredBefore(history: seq<Message>, j: nat, i: nat)
    requires j < i < |history|
  {
    forall c :: c in CallIds(history[j]) ==>
      c in CallIds(history[i]) || exists k :: j < k < i && history[k].role.Tool? && history[k].callId == Some(c)
  }

  /**
    Exactly when an allowed fork keeps no unanswered call: the boundary check looks at the boundary's calls, not at
    earlier ones.
   */
  lemma KeptCallsExactly(history: seq<Message>, id: string)
    requires BoundaryErrorOf(history, id).None?
    ensures AllAnswered(Slice(history, id)) <==>
      var i := Find(history, id); forall j :: 0 <= j < i && history[j].role.Ai? ==> CoveredBefore(history, j, i)
  {
    var i := Find(history, id);
    var kept := Slice(history, id);
    WalkCloses(history, i + 1, CallIds(history[i]));
    assert Answered(history, i + 1, |kept|, CallIds(history[i]));
    if AllAnswered(kept) {
      forall j | 0 <= j < i && history[j].role.Ai? ensures CoveredBefore(history, j, i) {
        CoveredByKept(history, i, |kept|, j);
      }
    }
    if forall j :: 0 <= j < i && history[j].role.Ai? ==> CoveredBefore(history, j, i) {
      forall j, c | 0 <= j < |kept| && kept[j].role.Ai? && c in CallIds(kept[j])
        ensures exists k :: j < k < |kept| && kept[k].role.Tool? && kept[k].callId == Some(c)
      {
        KeptAnswer(history, i, |kept|, j, c);
        var k :| j < k < |kept| && history[k].role.Tool? && history[k].callId == Some(c);
        assert kept[k] == history[k];
      }
    }
  }

  lemma CoveredByKept(history: seq<Message>, i: nat, end: nat, j: nat)
    requires j < i < end <= |history| && history[j].role.Ai? && history[i].role.Ai?
    requires Answered(history, i + 1, end, CallIds(history[i])) && AllAnswered(history[..end])
    ensures CoveredBefore(history, j, i)
  {
    var kept := history[..end];
    forall c | c in CallIds(history[j])
      ensures c in CallIds(history[i]) || exists k :: j < k < i && history[k].role.Tool? && history[k].callId == Some(c)
    {
      assert kept[j] == history[j];
      var k :| j < k < |kept| && kept[k].role.Tool? && kept[k].callId == Some(c);
      assert kept[k] == history[k];
      assert k > i ==> Answers(history[k], CallIds(history[i]));
    }
  }

  lemma KeptAnswer(history: seq<Message>, i: nat, end: nat, j: nat, c: string)
    requires i < end <= |history| && j < end && history[j].role.Ai? && c in CallIds(history[j])
    requires Answered(history, i + 1, end, CallIds(history[i]))
    requires j < i ==> CoveredBefore(history, j, i)
    ensures exists k :: j < k < end && history[k].role.Tool? && history[k].callId == Some(c)
  {
    NotAmong(history, i + 1, end, CallIds(history[i]), j);
    if j == i || c in CallIds(history[i]) {
      AnswerAmong(history, i + 1, end, CallIds(history[i]), c);
    }
  }

  lemma AnsweredIsCovered(history: seq<Message>, j: nat, i: nat)
    requires j < i < |history| && history[i].role.Ai? && AnsweredAfter(history, j)
    ensures CoveredBefore(history, j, i)
  {
    var to :| j < to <= |history| && Answered(history, j + 1, to, CallIds(history[j]));
    NotAmong(history, j + 1, to, CallIds(history[j]), i);
    forall c | c in CallIds(history[j])
      ensures exists k :: j < k < i && history[k].role.Tool? && history[k].callId == Some(c)
    {
      AnswerAmong(history, j + 1, to, CallIds(history[j]), c);
    }
  }

  /** In particular it keeps none if every earlier assistant turn is answered directly after it. */
  lemma KeptCallsAreAnswered(history: seq<Message>, id: string)
    requires BoundaryErrorOf(history, id).None?
    requires forall j :: 0 <= j < Find(history, id) && history[j].role.Ai? ==> AnsweredAfter(history, j)
    ensures AllAnswered(Slice(history, id))
  {
    var i := Find(history, id);
    forall j | 0 <= j < i && history[j].role.Ai? ensures CoveredBefore(history, j, i) {
      AnsweredIsCovered(history, j, i);
    }
    KeptCallsExactly(history, id);
  }

  /** An earlier turn whose call was never answered: the fork is allowed and keeps it. */
  lemma UnansweredCallCanBeKept()
    ensures var history := [Message(Some("a"), Ai, [Some("call")], None), Message(Some("b"), Ai, [], None)];
      BoundaryErrorOf(history, "b").None? && Slice(history, "b") == history && !AllAnswered(history)
  {
    var first, second := Message(Some("a"), Ai, [Some("call")], None), Message(Some("b"), Ai, [], None);
    var history := [first, second];
    assert history[1..] == [second];
    assert Find(history, "b") == 1;
    assert CallIds(second) == {};
    assert Some("call") in first.toolCalls && "call" in CallIds(first);
    assert history[..2] == history;
    assert history[0] == first;
    assert !AllAnswered(history);
  }
}
