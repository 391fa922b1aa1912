/**
 * The per-order chat window (src/components/common/ChatWindow.tsx): the
 * messages received on the order's channel, the text input and the send
 * action.
 */
module ChatWindow {
  import opened Types
  import opened Strings
  import opened Server

  /**
   * The message is drawn as the user's own. Stored messages carry `null` for
   * a missing sender, a signed-out user's id is `undefined`, and the two are
   * not `===`.
   */
  predicate IsOwn(msg: ChatMessage, me: Option<nat>)
  {
    me.Some? && msg.senderId == me
  }

  /** The window of one order. */
  class Window {
    const orderId: nat
    const me: Option<nat>
    const connected: bool
    var messages: seq<ChatMessage>
    var input: string
    var sent: seq<ChatSendRequest>

    constructor (orderId: nat, me: Option<nat>, connected: bool)
      ensures this.orderId == orderId && this.me == me && this.connected == connected
      ensures messages == [] && input == "" && sent == []
    {
      this.orderId := orderId;
      this.me := me;
      this.connected := connected;
      messages := [];
      input := "";
      sent := [];
    }

    method SetInput(v: string)
      modifies this`input
      ensures input == v
    {
      input := v;
    }

    /** The send button (or Enter) is disabled exactly when the input is blank. */
    predicate SendDisabled()
      reads this
    {
      Trim(input) == ""
    }

    /**
     * `sendMessage`: a blank input sends nothing and stays as typed.
     * Otherwise the text goes out exactly as typed, untrimmed, as a text
     * message from the user for this order, and the input is cleared.
     */
    method SendMessage()
      modifies this`input, this`sent
      ensures IsBlank(old(input)) ==> input == old(input) && sent == old(sent)
      ensures !IsBlank(old(input)) ==>
        && input == ""
        && sent == old(sent) + (if connected then [ChatSendRequest(orderId, me, old(input), Text, None)] else [])
    {
      TrimEmptyIffBlank(input);
      if Trim(input) == "" {
        return;
      }
      if connected {
        sent := sent + [ChatSendRequest(orderId, me, input, Text, None)];
      }
      input := "";
    }

    /**
     * A socket event arrives. Only the window's own `chat:<orderId>` listener
     * takes it, and the message goes at the end.
     */
    method Receive(channel: string, msg: ChatMessage)
      modifies this`messages
      ensures messages == old(messages) + (if channel == ChatChannel(orderId) then [msg] else [])
    {
      if channel == ChatChannel(orderId) {
        messages := messages + [msg];
      }
    }
  }

  /** The send button is disabled exactly when the input is all whitespace. */
  lemma SendDisabledIffBlank(w: Window)
    ensures w.SendDisabled() <==> IsBlank(w.input)
  {
    TrimEmptyIffBlank(w.input);
  }

  /** Messages the user sent while signed in come back drawn as the user's own; nobody owns anything while signed out. */
  lemma OwnMessages(req: ChatSendRequest, me: Option<nat>, id: nat, now: int)
    requires req.senderId == me
    ensures IsOwn(ChatMessage(id, req.orderId, req.senderId, req.message, req.kind, req.url, now), me) <==> me.Some?
  {
  }
}
