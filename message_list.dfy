/**
 * What src/components/MessageList.tsx shows for a message log and a loading
 * flag: a welcome panel, the message bubbles, and a "Thinking" placeholder.
 */
module MessageList {
  import opened Messages

  datatype ViewItem = WelcomePanel | Bubble(message: Message)

  /** The synthetic bot bubble shown while a reply is awaited; it is never part of the log. */
  const LoadingPlaceholder: Message := Message("loading", Bot, Thinking)

  /** One bubble per message, in array order (`messages.map(msg => <ChatBubble .../>)`). */
  function Bubbles(messages: seq<Message>): (v: seq<ViewItem>)
    ensures |v| == |messages|
    ensures forall i :: 0 <= i < |messages| ==> v[i] == Bubble(messages[i])
  {
    if messages == [] then [] else [Bubble(messages[0])] + Bubbles(messages[1..])
  }

  /**
   * The items rendered, top to bottom:
   * - the welcome panel exactly when there is one message;
   * - every message, in order, exactly when there are more than one (none with zero messages);
   * - the placeholder, last, exactly when loading.
   */
  function View(messages: seq<Message>, isLoading: bool): (v: seq<ViewItem>)
    ensures (WelcomePanel in v) <==> |messages| == 1
    ensures |messages| == 1 ==> v[0] == WelcomePanel
    ensures |messages| > 1 ==>
      |messages| <= |v| && forall i :: 0 <= i < |messages| ==> v[i] == Bubble(messages[i])
    ensures |messages| <= 1 ==>
      forall i :: 0 <= i < |v| && v[i].Bubble? ==> v[i].message == LoadingPlaceholder
    ensures isLoading ==> |v| > 0 && v[|v| - 1] == Bubble(LoadingPlaceholder)
    ensures |v| == (if |messages| == 1 then 1 else if |messages| > 1 then |messages| else 0)
                 + (if isLoading then 1 else 0)
    ensures !isLoading ==> forall i :: 0 <= i < |v| && v[i].Bubble? ==> v[i].message in messages
  {
    (if |messages| == 1 then [WelcomePanel] else [])
    + (if |messages| > 1 then Bubbles(messages) else [])
    + (if isLoading then [Bubble(LoadingPlaceholder)] else [])
  }

  /**
   * For a log that holds no "Thinking" node (the page never stores one), the
   * placeholder is not a message of the log and appears exactly when loading.
   */
  lemma PlaceholderShownIffLoading(messages: seq<Message>, isLoading: bool)
    requires forall i :: 0 <= i < |messages| ==> !messages[i].content.Thinking?
    ensures LoadingPlaceholder !in messages
    ensures Bubble(LoadingPlaceholder) in View(messages, isLoading) <==> isLoading
  {
  }
}
