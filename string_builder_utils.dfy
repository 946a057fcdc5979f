/**
 * StringBuilderUtils.append: appends a message to a caller-owned
 * StringBuilder, putting ", " in front of it when the builder already holds
 * text. The validate() methods of the entities accumulate their error
 * messages this way.
 */
module StringBuilderUtils {
  import opened Wrappers

  /** java.lang.StringBuilder, reduced to the text it holds. */
  class StringBuilder {
    var content: string

    /** new StringBuilder() */
    constructor ()
      ensures content == []
    {
      content := [];
    }

    /** StringBuilder.length() */
    function Length(): nat
      reads this
    {
      |content|
    }

    /** StringBuilder.append(String) for a non-null argument. */
    method AppendText(s: string)
      modifies this
      ensures content == old(content) + s
    {
      content := content + s;
    }
  }

  const Separator: string := ", "

  /** The text of a builder holding `content` after append(builder, message). */
  function Appended(content: string, message: Option<string>): (r: string)
    ensures content <= r
    ensures |content| == 0 ==> r == message.GetOr("")
  {
    (if |content| > 0 then content + Separator else content) + message.GetOr("")
  }

  /** StringBuilderUtils.append(builder, message); a null builder is left alone. */
  method Append(builder: StringBuilder?, message: Option<string>)
    modifies builder
    ensures builder != null ==> builder.content == Appended(old(builder.content), message)
  {
    if builder != null {
      if builder.Length() > 0 {
        builder.AppendText(Separator);
      }
      if message.Some? {
        builder.AppendText(message.value);
      }
    }
  }

  /** The messages joined with ", " between them. */
  function Join(messages: seq<string>): string {
    if |messages| == 0 then ""
    else if |messages| == 1 then messages[0]
    else Join(messages[..|messages| - 1]) + Separator + messages[|messages| - 1]
  }

  /** The text after appending every message, in order, to a builder holding `content`. */
  function AppendAll(content: string, messages: seq<string>): string {
    if |messages| == 0 then content
    else Appended(AppendAll(content, messages[..|messages| - 1]), Some(messages[|messages| - 1]))
  }

  /** Appending one more message extends AppendAll by that message. */
  lemma AppendAllStep(content: string, messages: seq<string>, message: string)
    ensures AppendAll(content, messages + [message]) == Appended(AppendAll(content, messages), Some(message))
  {
    assert (messages + [message])[..|messages|] == messages;
  }

  /** A null message and an empty message leave the same text behind. */
  lemma NullMessageIsEmptyMessage(content: string)
    ensures Appended(content, None) == Appended(content, Some(""))
  {
  }

  /** On a non-empty builder, a null message appends the separator alone. */
  lemma NullMessageAppendsSeparator(content: string)
    requires |content| > 0
    ensures Appended(content, None) == content + ", "
  {
  }

  /** Appending to a non-empty builder puts ", " between the old text and the message. */
  lemma AppendSeparates(content: string, message: string)
    requires |content| > 0
    ensures Appended(content, Some(message)) == content + ", " + message
  {
  }

  /** Joined non-empty messages are non-empty. */
  lemma {:induction false} JoinNonEmpty(messages: seq<string>)
    requires |messages| > 0
    requires forall i :: 0 <= i < |messages| ==> |messages[i]| > 0
    ensures |Join(messages)| > 0
  {
    if |messages| > 1 {
      JoinNonEmpty(messages[..|messages| - 1]);
    }
  }

  /**
   * Appending non-empty messages one after the other to an empty builder
   * yields exactly the messages joined by ", ": this is how every validate()
   * message is built.
   */
  lemma {:induction false} AppendAllIsJoin(messages: seq<string>)
    requires forall i :: 0 <= i < |messages| ==> |messages[i]| > 0
    ensures AppendAll("", messages) == Join(messages)
  {
    if |messages| > 0 {
      var init := messages[..|messages| - 1];
      var last := messages[|messages| - 1];
      AppendAllIsJoin(init);
      if |init| > 0 {
        JoinNonEmpty(init);
        assert init[..|init| - 1] == messages[..|messages| - 2];
      }
    }
  }

  /** The behaviour the unit tests pin down: "test" then "other test". */
  lemma TwoMessages()
    ensures Appended(Appended("", Some("test")), Some("other test")) == "test, other test"
  {
  }
}
