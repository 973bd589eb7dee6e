/** The chat screen's state transitions (`src/app/chat/page.js`): the
    document selection, the message thread and the single request in flight.
    The catalog query result and the AI webhook's reply are inputs. */
module Chat {
  import opened Options
  import opened Text

  type DocId = string

  /** A ready document as the catalog query returns it. */
  datatype Doc = Doc(id: DocId, fileName: string, status: string, summary: Option<string>)

  datatype Speaker = User | Assistant

  /** A thread entry; `content == None` is the assistant placeholder shown
      while the answer is awaited. */
  datatype Message = Message(speaker: Speaker, content: Option<string>)

  datatype ChatState = ChatState(
    companyId: string,
    documents: seq<Doc>,
    selected: seq<DocId>,
    messages: seq<Message>,
    question: string,
    loading: bool)

  /** The JSON body posted to the AI webhook. */
  datatype QueryRequest = QueryRequest(question: string, companyId: string, selectedDocIds: seq<DocId>)

  /** How the webhook call ended: a response whose whole body was read
      (whatever its HTTP status), or a thrown error. */
  datatype Reply = Answered(body: string) | Threw

  /** A state together with the request it issued, if any. */
  datatype Sent = Sent(state: ChatState, request: Option<QueryRequest>)

  const NoResponse: string := "No response."
  const Fallback: string := "Sorry, AI is not responding right now."

  const Initial: ChatState := ChatState("", [], [], [], "", false)

  /** The guard at the top of `handleSend`. */
  predicate CanSend(s: ChatState) {
    Trim(s.question) != [] && |s.selected| != 0 && !s.loading
  }

  /** The send button's `disabled` expression, negated: the button is
      enabled exactly when a click would be accepted. */
  function SendEnabled(s: ChatState): (enabled: bool)
    ensures enabled <==> CanSend(s)
  {
    !(s.loading || |s.selected| == 0 || Trim(s.question) == [])
  }

  /** The first half of `handleSend`: append the question and an empty
      assistant placeholder, clear the input, mark the request in flight and
      build the request body. A rejected send changes nothing. */
  function BeginSend(s: ChatState): (r: Sent)
    ensures !CanSend(s) ==> r == Sent(s, None)
    ensures CanSend(s) ==>
              && r.state.messages == s.messages + [Message(User, Some(s.question)), Message(Assistant, None)]
              && r.state.question == [] && r.state.loading
              && r.state.companyId == s.companyId && r.state.documents == s.documents
              && r.state.selected == s.selected
    // the body carries the trimmed question, the company and the selection as it stood
    ensures CanSend(s) ==> r.request == Some(QueryRequest(Trim(s.question), s.companyId, s.selected))
  {
    if !CanSend(s) then Sent(s, None)
    else
      var thread := s.messages + [Message(User, Some(s.question)), Message(Assistant, None)];
      Sent(s.(messages := thread, question := [], loading := true),
           Some(QueryRequest(Trim(s.question), s.companyId, s.selected)))
  }

  /** The text the placeholder receives: the trimmed body, `'No response.'`
      for a blank body, the fixed apology for a thrown error. It is never
      blank, so an answered exchange never shows an empty bubble. */
  function AnswerText(reply: Reply): (t: string)
    ensures Trim(t) != []
    ensures reply.Answered? && Trim(reply.body) != [] ==> t == Trim(reply.body)
    ensures reply.Answered? && Trim(reply.body) == [] ==> t == NoResponse
    ensures reply.Threw? ==> t == Fallback
  {
    match reply
    case Answered(body) =>
      if Trim(body) != [] then Trim(body)
      else assert !IsSpace(NoResponse[0]); NoResponse
    case Threw => assert !IsSpace(Fallback[0]); Fallback
  }

  /** The thread with its last message given `text` as content, speaker kept. */
  function FillLast(ms: seq<Message>, text: string): (r: seq<Message>)
    requires |ms| > 0
    ensures |r| == |ms|
    ensures forall i :: 0 <= i < |ms| - 1 ==> r[i] == ms[i]
    ensures r[|ms| - 1] == Message(ms[|ms| - 1].speaker, Some(text))
  {
    ms[..|ms| - 1] + [Message(ms[|ms| - 1].speaker, Some(text))]
  }

  /** The second half of `handleSend`: the last message, and only it, gets
      its content; the request is no longer in flight. */
  function Resolve(s: ChatState, reply: Reply): (r: ChatState)
    requires |s.messages| > 0
    ensures |r.messages| == |s.messages|
    ensures forall i :: 0 <= i < |s.messages| - 1 ==> r.messages[i] == s.messages[i]
    ensures var last := |s.messages| - 1;
            r.messages[last] == Message(s.messages[last].speaker, Some(AnswerText(reply)))
    ensures !r.loading
    ensures r.companyId == s.companyId && r.documents == s.documents
    ensures r.selected == s.selected && r.question == s.question
  {
    s.(messages := FillLast(s.messages, AnswerText(reply)), loading := false)
  }

  /** A whole `handleSend`: guard, append, request, reply, reset. */
  function Send(s: ChatState, reply: Reply): (r: Sent)
    ensures !CanSend(s) ==> r == Sent(s, None)
    ensures CanSend(s) ==>
              && r.state.messages == s.messages + [Message(User, Some(s.question)),
                                                   Message(Assistant, Some(AnswerText(reply)))]
              && r.state.question == [] && !r.state.loading
              && r.state.companyId == s.companyId && r.state.documents == s.documents
              && r.state.selected == s.selected
              && r.request == Some(QueryRequest(Trim(s.question), s.companyId, s.selected))
  {
    var b := BeginSend(s);
    if b.request.None? then b
    else
      var r := Resolve(b.state, reply);
      assert r.messages == s.messages + [Message(User, Some(s.question)),
                                         Message(Assistant, Some(AnswerText(reply)))];
      Sent(r, b.request)
  }

  /** The shape of message `i` in a thread of `n` messages: user messages
      sit at even positions and hold a non-blank question; an assistant
      message lacks content exactly when it is the last one and a request
      is in flight. */
  predicate MessageOk(m: Message, i: nat, n: nat, loading: bool) {
    && (m.speaker == User <==> i % 2 == 0)
    && (m.speaker == User ==> m.content.Some? && Trim(m.content.value) != [])
    && (m.speaker == Assistant ==> (m.content.None? <==> loading && i == n - 1))
  }

  /** The thread's shape: user and assistant messages alternate starting
      with the user, every message is well-formed at its position, and a
      request in flight has its placeholder. */
  predicate ThreadOk(s: ChatState) {
    && |s.messages| % 2 == 0
    && (forall i :: 0 <= i < |s.messages| ==> MessageOk(s.messages[i], i, |s.messages|, s.loading))
    && (s.loading ==> |s.messages| > 0)
  }

  lemma InitialThreadOk()
    ensures ThreadOk(Initial)
  {
  }

  /** An accepted send leaves a well-formed thread with the placeholder pending. */
  lemma BeginSendKeepsThread(s: ChatState)
    requires ThreadOk(s)
    ensures ThreadOk(BeginSend(s).state)
    ensures CanSend(s) ==> BeginSend(s).state.loading
  {
    if CanSend(s) {
      var r := BeginSend(s).state;
      var m := r.messages;
      var n := |s.messages|;
      assert |m| == n + 2 && r.loading && !s.loading;
      forall i | 0 <= i < |m|
        ensures MessageOk(m[i], i, |m|, r.loading)
      {
        if i < n {
          assert m[i] == s.messages[i];
          assert MessageOk(s.messages[i], i, n, s.loading);
        } else if i == n {
          assert m[i] == Message(User, Some(s.question));
        } else {
          assert m[i] == Message(Assistant, None);
        }
      }
    }
  }

  /** Resolving the pending placeholder leaves a well-formed, settled thread. */
  lemma ResolveKeepsThread(s: ChatState, reply: Reply)
    requires ThreadOk(s) && s.loading
    ensures ThreadOk(Resolve(s, reply))
  {
    var r := Resolve(s, reply);
    var n := |s.messages|;
    var text := AnswerText(reply);
    assert r.messages[n - 1] == Message(s.messages[n - 1].speaker, Some(text));
    forall i | 0 <= i < n
      ensures MessageOk(r.messages[i], i, n, r.loading)
    {
      assert MessageOk(s.messages[i], i, n, s.loading);
      if i < n - 1 {
        assert r.messages[i] == s.messages[i];
      }
    }
  }

  /** A complete send keeps the thread well-formed and settled. */
  lemma SendKeepsThread(s: ChatState, reply: Reply)
    requires ThreadOk(s)
    ensures ThreadOk(Send(s, reply).state)
  {
    BeginSendKeepsThread(s);
    if CanSend(s) {
      ResolveKeepsThread(BeginSend(s).state, reply);
    }
  }

  /** One user turn: type `question`, press send, receive `reply`. */
  datatype Turn = Turn(question: string, reply: Reply)

  function Converse(s: ChatState, turns: seq<Turn>): (r: ChatState)
    decreases |turns|
  {
    if turns == [] then s
    else Converse(Send(s.(question := turns[0].question), turns[0].reply).state, turns[1..])
  }

  /** Messages are never rewritten once settled: over any run of turns
      started from a settled thread, the earlier thread stays a prefix, the
      shape is kept and nothing is left in flight. */
  lemma {:induction false} ConverseKeepsHistory(s: ChatState, turns: seq<Turn>)
    requires ThreadOk(s) && !s.loading
    ensures var r := Converse(s, turns);
            s.messages <= r.messages && ThreadOk(r) && !r.loading
    decreases |turns|
  {
    if turns != [] {
      var s' := s.(question := turns[0].question);
      assert ThreadOk(s');
      SendKeepsThread(s', turns[0].reply);
      var next := Send(s', turns[0].reply).state;
      ConverseKeepsHistory(next, turns[1..]);
    }
  }

  /** `prev.filter(d => d !== x)`: every copy of `x` removed, order kept. */
  function Without(xs: seq<DocId>, x: DocId): (r: seq<DocId>)
    ensures forall y :: y in r <==> y in xs && y != x
    ensures |r| <= |xs|
    ensures x !in xs ==> r == xs
    ensures multiset(r) == multiset(xs)[x := 0]
  {
    if xs == [] then []
    else
      assert xs == [xs[0]] + xs[1..];
      if xs[0] == x then Without(xs[1..], x)
      else [xs[0]] + Without(xs[1..], x)
  }

  /** Filtering distributes over concatenation, so the kept ids stay in
      their original order; with `WithoutOne` this determines `Without`
      completely. */
  lemma {:induction false} WithoutConcat(a: seq<DocId>, b: seq<DocId>, x: DocId)
    ensures Without(a + b, x) == Without(a, x) + Without(b, x)
    decreases |a|
  {
    if a == [] {
      assert a + b == b;
    } else {
      var ab := a + b;
      assert ab[0] == a[0];
      assert ab[1..] == a[1..] + b;
      WithoutConcat(a[1..], b, x);
      if a[0] == x {
        assert Without(ab, x) == Without(a[1..] + b, x);
      } else {
        assert Without(ab, x) == [a[0]] + Without(a[1..] + b, x);
      }
    }
  }

  /** A single id is dropped exactly when it is the one filtered out. */
  lemma WithoutOne(y: DocId, x: DocId)
    ensures Without([y], x) == (if y == x then [] else [y])
  {
    assert [y][1..] == [];
  }

  /** `toggleDoc`: remove a selected id (all its copies), append an unselected one. */
  function Toggle(selected: seq<DocId>, id: DocId): (r: seq<DocId>)
    ensures id in r <==> id !in selected
    ensures forall y :: y != id ==> (y in r <==> y in selected)
    ensures id !in selected ==> r == selected + [id]
    ensures id in selected ==> r == Without(selected, id)
  {
    if id in selected then Without(selected, id) else selected + [id]
  }

  lemma {:induction false} WithoutAppended(xs: seq<DocId>, x: DocId)
    ensures Without(xs + [x], x) == Without(xs, x)
  {
    if xs == [] {
      assert [] + [x] == [x];
      assert [x][1..] == [];
    } else {
      assert (xs + [x])[1..] == xs[1..] + [x];
      WithoutAppended(xs[1..], x);
    }
  }

  /** Toggling twice restores membership of every id; for an id that was not
      selected it restores the selection exactly, and a selected one ends up
      once, at the end. */
  lemma ToggleTwice(selected: seq<DocId>, id: DocId)
    ensures var r := Toggle(Toggle(selected, id), id);
            forall y :: y in r <==> y in selected
    ensures id !in selected ==> Toggle(Toggle(selected, id), id) == selected
    ensures id in selected ==> Toggle(Toggle(selected, id), id) == Without(selected, id) + [id]
  {
    if id !in selected {
      WithoutAppended(selected, id);
    }
  }

  /** The ids of a document list, in order. */
  function Ids(docs: seq<Doc>): (ids: seq<DocId>)
    ensures |ids| == |docs|
    ensures forall i :: 0 <= i < |docs| ==> ids[i] == docs[i].id
  {
    seq(|docs|, i requires 0 <= i < |docs| => docs[i].id)
  }

  /** `refreshDocs`: nothing without a company; otherwise the documents
      become the query result (`null` read as empty), a non-empty result
      selects all its documents, and an empty one leaves the selection. */
  function Refresh(s: ChatState, result: Option<seq<Doc>>): (r: ChatState)
    ensures s.companyId == [] ==> r == s
    ensures s.companyId != [] ==> r.documents == result.GetOr([])
    ensures s.companyId != [] && |result.GetOr([])| > 0 ==> r.selected == Ids(result.value)
    ensures |result.GetOr([])| == 0 ==> r.selected == s.selected
    ensures r.messages == s.messages && r.loading == s.loading && r.question == s.question
    ensures r.companyId == s.companyId
  {
    if s.companyId == [] then s
    else
      var docs := result.GetOr([]);
      if |docs| > 0 then s.(documents := docs, selected := Ids(docs))
      else s.(documents := docs)
  }

  /** After a refresh that found documents, the selection is exactly the
      catalog: every selected id names a listed document and every listed
      document is selected. */
  lemma RefreshSelectsCatalog(s: ChatState, docs: seq<Doc>)
    requires s.companyId != [] && |docs| > 0
    ensures var r := Refresh(s, Some(docs));
            (forall id :: id in r.selected ==> exists d :: d in r.documents && d.id == id)
            && (forall d :: d in r.documents ==> d.id in r.selected)
  {
    var r := Refresh(s, Some(docs));
    forall id | id in r.selected
      ensures exists d :: d in r.documents && d.id == id
    {
      var i :| 0 <= i < |r.selected| && r.selected[i] == id;
      assert r.documents[i] in r.documents;
    }
    forall d | d in r.documents
      ensures d.id in r.selected
    {
      var i :| 0 <= i < |r.documents| && r.documents[i] == d;
      assert r.selected[i] == d.id;
    }
  }

  /** A refresh that found nothing keeps the previous selection even though
      the catalog is now empty, so a question can still be sent with ids
      that no longer name a ready document. */
  lemma EmptyRefreshKeepsStaleSelection(s: ChatState)
    requires s.companyId != [] && |s.selected| > 0 && Trim(s.question) != [] && !s.loading
    ensures var r := Refresh(s, Some([]));
            r.documents == [] && r.selected == s.selected && CanSend(r)
  {
  }

  /** Neither a refresh nor a toggle touches the thread or the flight flag. */
  lemma SelectionLeavesThread(s: ChatState, result: Option<seq<Doc>>, id: DocId)
    requires ThreadOk(s)
    ensures ThreadOk(Refresh(s, result))
    ensures ThreadOk(s.(selected := Toggle(s.selected, id)))
  {
  }
}
