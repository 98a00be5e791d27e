/**
 * The direct-message page (pages/Chat.tsx): the user's visible sessions, the
 * open session, sending a message and the mock chat starter.
 */
module ChatPage {
  import opened Types
  import opened Seqs
  import opened Text
  import opened StorageService

  const MockSellerId := "mock_seller_id"
  const MockGreeting := "Olá! Posso ajudar?"

  /** The list's test: the user is one of the session's participants. */
  predicate Participates(c: ChatSession, userId: string) {
    userId in c.participants
  }

  /** The stored chats the user takes part in, in stored order. */
  function VisibleSessions(chats: seq<ChatSession>, userId: string): (r: seq<ChatSession>)
    ensures IsSubsequence(r, chats)
    ensures forall i :: 0 <= i < |r| ==> r[i] in chats && Participates(r[i], userId)
    ensures forall i :: 0 <= i < |chats| && Participates(chats[i], userId) ==> chats[i] in r
    ensures forall i :: 0 <= i < |chats| ==>
              multiset(r)[chats[i]] == if Participates(chats[i], userId) then multiset(chats)[chats[i]] else 0
  {
    Filter(chats, (c: ChatSession) => Participates(c, userId))
  }

  /** The session after a message: its messages gain one at the end and it is re-stamped. */
  function WithMessage(session: ChatSession, message: ChatMessage, now: int): (r: ChatSession)
    ensures r.id == session.id && r.participants == session.participants
    ensures r.messages == session.messages + [message]
  {
    session.(messages := session.messages + [message], lastUpdated := now)
  }

  /** The stored chats with the open session's id become the updated session; the others stay. */
  function ReplaceChat(chats: seq<ChatSession>, id: string, updated: ChatSession): (r: seq<ChatSession>)
    ensures |r| == |chats|
    ensures forall i :: 0 <= i < |chats| ==> r[i] == (if chats[i].id == id then updated else chats[i])
  {
    Map(chats, (c: ChatSession) => if c.id == id then updated else c)
  }

  /** The chat `startMockChat` creates: the user and the mock seller, one greeting. */
  function MockChat(userId: string, now: nat): (r: ChatSession)
    ensures r.participants == [userId, MockSellerId] && |r.messages| == 1
    ensures Participates(r, userId)
  {
    ChatSession(NatToString(now), [userId, MockSellerId], None,
                [ChatMessage("1", MockSellerId, Some(MockGreeting), None, now)], now)
  }

  /**
   * What `startMockChat` stores when the page shows exactly the user's
   * sessions: those sessions plus the mock chat. Stored chats the user is not
   * part of are gone, and the user sees every stored chat afterwards.
   */
  lemma MockChatKeepsOnlyVisible(chats: seq<ChatSession>, userId: string, now: nat)
    ensures var saved := VisibleSessions(chats, userId) + [MockChat(userId, now)];
            && (forall c :: c in chats && !Participates(c, userId) ==> c !in saved)
            && VisibleSessions(saved, userId) == saved
  {
    var saved := VisibleSessions(chats, userId) + [MockChat(userId, now)];
    FilterKeepsAll(saved, (c: ChatSession) => Participates(c, userId));
  }

  class ChatView {
    var sessions: seq<ChatSession>
    var activeSession: Option<ChatSession>
    var msgText: string
    const store: Storage

    ghost predicate Valid()
      reads this, store
    {
      store.Valid()
    }

    constructor (store: Storage)
      requires store.Valid()
      ensures Valid() && this.store == store
      ensures sessions == [] && activeSession == None && msgText == ""
    {
      this.store := store;
      sessions := [];
      activeSession := None;
      msgText := "";
    }

    /** The loading effect: with a user, the sessions are that user's stored chats. */
    method LoadSessions(user: Option<User>)
      modifies this`sessions
      ensures user.Some? ==> sessions == VisibleSessions(store.GetChats(), user.value.id)
      ensures user.None? ==> sessions == old(sessions)
    {
      if user.Some? {
        var allChats := store.GetChats();
        sessions := VisibleSessions(allChats, user.value.id);
      }
    }

    /** Clicking a session in the list, or the back button (`None`). */
    method SetActiveSession(session: Option<ChatSession>)
      modifies this`activeSession
      ensures activeSession == session
    {
      activeSession := session;
    }

    method SetMsgText(text: string)
      modifies this`msgText
      ensures msgText == text
    {
      msgText := text;
    }

    /**
     * `sendMessage`: nothing happens for blank text, no open session or no
     * user. Otherwise the open session gains one message by the user, the
     * stored chats with its id are replaced by it (count and order kept), the
     * list is refreshed from what was stored and the input is cleared.
     */
    method SendMessage(user: Option<User>, now: nat)
      requires Valid()
      modifies this, store`slots
      ensures Valid()
      ensures IsBlank(old(msgText)) || old(activeSession).None? || user.None? ==>
                sessions == old(sessions) && activeSession == old(activeSession) &&
                msgText == old(msgText) && store.slots == old(store.slots)
      ensures !IsBlank(old(msgText)) && old(activeSession).Some? && user.Some? ==>
                var message := ChatMessage(NatToString(now), user.value.id, Some(old(msgText)), None, now);
                var updated := WithMessage(old(activeSession).value, message, now);
                var newChats := ReplaceChat(old(store.GetChats()), old(activeSession).value.id, updated);
                && store.slots == old(store.slots)[ChatsKey := ChatsSlot(newChats)]
                && sessions == VisibleSessions(newChats, user.value.id)
                && activeSession == Some(updated)
                && updated.messages[|updated.messages| - 1].senderId == user.value.id
                && msgText == ""
    {
      if IsBlank(msgText) || activeSession.None? || user.None? {
        return;
      }
      var newMessage := ChatMessage(NatToString(now), user.value.id, Some(msgText), None, now);
      var updatedSession := WithMessage(activeSession.value, newMessage, now);
      var allChats := store.GetChats();
      var newChats := ReplaceChat(allChats, activeSession.value.id, updatedSession);
      store.SaveChats(newChats);
      sessions := VisibleSessions(newChats, user.value.id);
      activeSession := Some(updatedSession);
      msgText := "";
    }

    /**
     * `startMockChat`: with a user, the currently listed sessions plus one
     * new chat with the mock seller are stored and listed.
     */
    method StartMockChat(user: Option<User>, now: nat)
      requires Valid()
      modifies this`sessions, store`slots
      ensures Valid()
      ensures user.None? ==> sessions == old(sessions) && store.slots == old(store.slots)
      ensures user.Some? ==>
                && sessions == old(sessions) + [MockChat(user.value.id, now)]
                && store.slots == old(store.slots)[ChatsKey := ChatsSlot(sessions)]
    {
      if user.None? {
        return;
      }
      var mockChat := MockChat(user.value.id, now);
      store.SaveChats(sessions + [mockChat]);
      sessions := sessions + [mockChat];
    }
  }
}
