/** Where the notices go in a model request (jobsmith/adapters/langchain/delivery.py). */
module Notices {
  datatype Message = System(text: string) | Said(text: string)

  /** System messages only in the leading block: what a provider accepts. */
  predicate OneSystemBlock(messages: seq<Message>) {
    forall i, j :: 0 <= i < j < |messages| && messages[j].System? ==> messages[i].System?
  }

  function Conversation(messages: seq<Message>): seq<Message> {
    if messages == [] then []
    else if messages[0].Said? then [messages[0]] + Conversation(messages[1..])
    else Conversation(messages[1..])
  }

  lemma {:induction false} ConversationOfBoth(a: seq<Message>, b: seq<Message>)
    ensures Conversation(a + b) == Conversation(a) + Conversation(b)
  {
    if a == [] {
      assert a + b == b;
    } else {
      assert (a + b)[1..] == a[1..] + b;
      ConversationOfBoth(a[1..], b);
    }
  }

  lemma {:induction false} NoticesAreNotConversation(notices: seq<Message>)
    requires forall m :: m in notices ==> m.System?
    ensures Conversation(notices) == []
  {
    if notices != [] {
      assert notices[0] in notices;
      NoticesAreNotConversation(notices[1..]);
    }
  }

  /** The leading system messages, then the notices in their order, then the rest. */
  ghost predicate InAfterTheLeading(messages: seq<Message>, notices: seq<Message>, r: seq<Message>) {
    exists head :: 0 <= head <= |messages| && r == messages[..head] + notices + messages[head..]
                   && (forall i :: 0 <= i < head ==> messages[i].System?)
                   && (head < |messages| ==> messages[head].Said?)
  }

  /** Notices go right after the leading system messages: the request keeps one system block if it had one,
      the conversation is untouched, and whatever is said last stays last. */
  method Inject(messages: seq<Message>, notices: seq<Message>) returns (r: seq<Message>)
    requires forall m :: m in notices ==> m.System?
    ensures OneSystemBlock(r) <==> OneSystemBlock(messages)
    ensures Conversation(r) == Conversation(messages)
    ensures multiset(r) == multiset(messages) + multiset(notices)
    ensures messages != [] && messages[|messages| - 1].Said? ==> r[|r| - 1] == messages[|messages| - 1]
    ensures InAfterTheLeading(messages, notices, r)
  {
    var head := 0;
    while head < |messages| && messages[head].System?
      invariant 0 <= head <= |messages|
      invariant forall i :: 0 <= i < head ==> messages[i].System?
    {
      head := head + 1;
    }
    r := Inserted(messages, notices, head);
    ConversationKept(messages[..head], notices, messages[head..]);
    BlocksAgree(messages, notices, head);
    assert messages == messages[..head] + messages[head..];
  }

  function Inserted(messages: seq<Message>, notices: seq<Message>, head: nat): seq<Message>
    requires head <= |messages|
  {
    messages[..head] + notices + messages[head..]
  }

  lemma ConversationKept(a: seq<Message>, notices: seq<Message>, b: seq<Message>)
    requires forall m :: m in notices ==> m.System?
    ensures Conversation(a + notices + b) == Conversation(a + b)
  {
    NoticesAreNotConversation(notices);
    ConversationOfBoth(a, notices);
    ConversationOfBoth(a + notices, b);
    ConversationOfBoth(a, b);
  }

  /** Past its leading system messages, a list has one system block exactly when only conversation follows. */
  lemma LeadingBlock(messages: seq<Message>, head: nat)
    requires head <= |messages| && forall i :: 0 <= i < head ==> messages[i].System?
    requires head < |messages| ==> messages[head].Said?
    ensures OneSystemBlock(messages) <==> forall k :: head <= k < |messages| ==> messages[k].Said?
  {
  }

  lemma BlocksAgree(messages: seq<Message>, notices: seq<Message>, head: nat)
    requires head <= |messages| && forall m :: m in notices ==> m.System?
    requires forall i :: 0 <= i < head ==> messages[i].System?
    requires head < |messages| ==> messages[head].Said?
    ensures OneSystemBlock(Inserted(messages, notices, head)) <==> OneSystemBlock(messages)
  {
    var r := Inserted(messages, notices, head);
    LeadingBlock(messages, head);
    LeadingBlock(r, head + |notices|);
    assert forall k :: head <= k < |messages| ==> r[k + |notices|] == messages[k];
    assert forall k :: head + |notices| <= k < |r| ==> r[k] == messages[k - |notices|];
  }
}
