/** The configuration constants that drive classification, table naming,
    content templates and the keepalive interval. */
module Config {
  import opened PyValues

  // Event names of the chat protocol.
  const CHAT_MESSAGE_EVENT: string := "App\\Events\\ChatMessageEvent"
  const SUBSCRIPTION_EVENT: string := "App\\Events\\SubscriptionEvent"
  const USER_BANNED_EVENT: string := "App\\Events\\UserBannedEvent"
  const USER_UNBANNED_EVENT: string := "App\\Events\\UserUnbannedEvent"
  const MESSAGE_DELETED_EVENT: string := "App\\Events\\MessageDeletedEvent"
  const PINNED_MESSAGE_CREATED_EVENT: string := "App\\Events\\PinnedMessageCreatedEvent"
  const CHAT_MESSAGE_SENT_EVENT: string := "App\\Events\\ChatMessageSentEvent"
  const CHATROOM_UPDATED_EVENT: string := "App\\Events\\ChatroomUpdatedEvent"
  const STREAM_HOST_EVENT: string := "App\\Events\\StreamHostEvent"
  const PINNED_MESSAGE_DELETED_EVENT: string := "App\\Events\\PinnedMessageDeletedEvent"
  const CHATROOM_CLEAR_EVENT: string := "App\\Events\\ChatroomClearEvent"
  const POLL_UPDATE_EVENT: string := "App\\Events\\PollUpdateEvent"
  const POLL_DELETE_EVENT: string := "App\\Events\\PollDeleteEvent"
  const PUSHER_CONNECTION_ESTABLISHED_EVENT: string := "pusher:connection_established"
  const PUSHER_INTERNAL_SUBSCRIPTION_SUCCEEDED_EVENT: string := "pusher_internal:subscription_succeeded"

  /** Events that are parsed and handed to storage. */
  const HANDLED_EVENTS: set<string> := {
    CHAT_MESSAGE_EVENT,
    SUBSCRIPTION_EVENT,
    USER_BANNED_EVENT,
    USER_UNBANNED_EVENT,
    MESSAGE_DELETED_EVENT,
    PINNED_MESSAGE_CREATED_EVENT,
    CHAT_MESSAGE_SENT_EVENT,
    CHATROOM_UPDATED_EVENT,
    STREAM_HOST_EVENT,
    PINNED_MESSAGE_DELETED_EVENT,
    CHATROOM_CLEAR_EVENT
  }

  /** Events that are dropped without a trace. */
  const IGNORED_EVENTS: set<string> := {
    PUSHER_CONNECTION_ESTABLISHED_EVENT,
    PUSHER_INTERNAL_SUBSCRIPTION_SUCCEEDED_EVENT,
    POLL_UPDATE_EVENT,
    POLL_DELETE_EVENT
  }

  const PING_INTERVAL_MINUTES: int := 60

  const CHANNEL_TABLE_PREFIX: string := "kickchat_"

  /** The `{name}` replacement field of a template. */
  function Field(name: string): string { "{" + name + "}" }

  // Content templates. A template with replacement fields is written as the
  // concatenation of its literal text and its `Field`s.
  const SUBSCRIPTION_CONTENT_TEMPLATE: string :=
    Field("username") + (" subscribed for " + (Field("months") + " months"))
  const USER_BANNED_PERMANENT_TEMPLATE: string :=
    Field("username") + (" was banned permanently by " + Field("banned_by"))
  const USER_BANNED_TEMPORARY_TEMPLATE: string :=
    Field("username") + (" was banned for " + (Field("duration") + (" seconds by " + Field("banned_by"))))
  const USER_UNBANNED_TEMPLATE: string :=
    Field("username") + (" was unbanned by " + Field("unbanned_by"))
  const MESSAGE_DELETED_AI_TEMPLATE: string := "Message deleted (AI moderated)"
  const MESSAGE_DELETED_MANUAL_TEMPLATE: string := "Message deleted (manually moderated)"
  const MESSAGE_PINNED_TEMPLATE: string := "Message pinned: " + Field("content")
  const MESSAGE_SENT_TEMPLATE: string := "Message sent (" + (Field("message_type") + ("): " + Field("action")))
  const CHATROOM_UPDATED_TEMPLATE: string := "Chatroom settings updated"
  const STREAM_HOST_TEMPLATE: string :=
    Field("host_username") + (" is hosting the stream with " + (Field("number_viewers") + " viewers"))
  const PINNED_MESSAGE_DELETED_TEMPLATE: string := "Pinned message deleted"
  const CHATROOM_CLEAR_TEMPLATE: string := "Chatroom cleared"

  /** No event name is both handled and ignored, and there are eleven handled
      and four ignored names. */
  lemma EventSetsDisjoint()
    ensures HANDLED_EVENTS !! IGNORED_EVENTS
    ensures |HANDLED_EVENTS| == 11 && |IGNORED_EVENTS| == 4
  {
  }

  /** The two poll events and the two pusher housekeeping events are ignored, not handled. */
  lemma HousekeepingIgnored()
    ensures forall e :: e in {POLL_UPDATE_EVENT, POLL_DELETE_EVENT,
                              PUSHER_CONNECTION_ESTABLISHED_EVENT,
                              PUSHER_INTERNAL_SUBSCRIPTION_SUCCEEDED_EVENT} ==>
                        e in IGNORED_EVENTS && e !in HANDLED_EVENTS
  {
    EventSetsDisjoint();
  }

  /** Literal text without braces contributes no field name. */
  lemma {:induction false} PlaceholdersOfText(lit: string, rest: string)
    requires forall k :: 0 <= k < |lit| ==> lit[k] != '{' && lit[k] != '}'
    ensures Placeholders(lit + rest) == Placeholders(rest)
    decreases |lit|
  {
    if lit != [] {
      assert (lit + rest)[1..] == lit[1..] + rest;
      PlaceholdersOfText(lit[1..], rest);
    } else {
      assert lit + rest == rest;
    }
  }

  /** The first '}' at or after `from` is found. */
  lemma {:induction false} FieldEndFinds(t: string, from: nat, j: nat)
    requires from <= j < |t| && t[j] == '}'
    requires forall k :: from <= k < j ==> t[k] != '}'
    ensures FieldEnd(t, from) == Some(j)
    decreases j - from
  {
    if from < j {
      FieldEndFinds(t, from + 1, j);
    }
  }

  /** A field whose name has no braces contributes that name. */
  lemma PlaceholdersOfField(name: string, rest: string)
    requires forall k :: 0 <= k < |name| ==> name[k] != '{' && name[k] != '}'
    ensures Placeholders(Field(name) + rest) == [name] + Placeholders(rest)
  {
    var t := Field(name) + rest;
    assert forall k :: 1 <= k < |name| + 1 ==> t[k] == name[k - 1];
    FieldEndFinds(t, 1, |name| + 1);
    assert t[1..|name| + 1] == name;
    assert t[|name| + 2..] == rest;
  }

  /** Formatting copies literal text without braces. */
  lemma {:induction false} FormatOfText(lit: string, rest: string, args: map<string, string>)
    requires forall k :: 0 <= k < |lit| ==> lit[k] != '{' && lit[k] != '}'
    ensures Format(lit + rest, args) ==
            if Format(rest, args).Some? then Some(lit + Format(rest, args).value) else None
    decreases |lit|
  {
    if lit != [] {
      assert (lit + rest)[1..] == lit[1..] + rest;
      FormatOfText(lit[1..], rest, args);
      if Format(rest, args).Some? {
        assert [lit[0]] + (lit[1..] + Format(rest, args).value) == lit + Format(rest, args).value;
      }
    } else {
      assert lit + rest == rest;
      if Format(rest, args).Some? {
        assert lit + Format(rest, args).value == Format(rest, args).value;
      }
    }
  }

  /** Formatting replaces a field by its value, and fails when it has none. */
  lemma FormatOfField(name: string, rest: string, args: map<string, string>)
    requires forall k :: 0 <= k < |name| ==> name[k] != '{' && name[k] != '}'
    ensures Format(Field(name) + rest, args) ==
            if name in args && Format(rest, args).Some? then Some(args[name] + Format(rest, args).value) else None
  {
    var t := Field(name) + rest;
    assert forall k :: 1 <= k < |name| + 1 ==> t[k] == name[k - 1];
    FieldEndFinds(t, 1, |name| + 1);
    assert t[1..|name| + 1] == name;
    assert t[|name| + 2..] == rest;
  }

  lemma FormatOfLiteral(lit: string, args: map<string, string>)
    requires forall k :: 0 <= k < |lit| ==> lit[k] != '{' && lit[k] != '}'
    ensures Format(lit, args) == Some(lit)
  {
    FormatOfText(lit, [], args);
    assert lit + [] == lit;
  }

  /** A field that ends the template. */
  lemma FormatOfLastField(name: string, args: map<string, string>)
    requires forall k :: 0 <= k < |name| ==> name[k] != '{' && name[k] != '}'
    ensures Format(Field(name), args) == if name in args then Some(args[name]) else None
  {
    FormatOfField(name, [], args);
    assert Field(name) + [] == Field(name);
    assert name in args ==> args[name] + [] == args[name];
  }

  /** The permanent ban template names the user and the moderator. */
  lemma PermanentBanTemplateFields()
    ensures Placeholders(USER_BANNED_PERMANENT_TEMPLATE) == ["username", "banned_by"]
  {
    var last := Field("banned_by");
    var mid := " was banned permanently by " + last;
    PlaceholdersOfField("banned_by", []);
    assert last + [] == last;
    PlaceholdersOfText(" was banned permanently by ", last);
    PlaceholdersOfField("username", mid);
  }

  /** The temporary ban template names the user, the duration and the moderator. */
  lemma TemporaryBanTemplateFields()
    ensures Placeholders(USER_BANNED_TEMPORARY_TEMPLATE) == ["username", "duration", "banned_by"]
  {
    var last := Field("banned_by");
    var afterDuration := " seconds by " + last;
    var fromDuration := Field("duration") + afterDuration;
    var mid := " was banned for " + fromDuration;
    PlaceholdersOfField("banned_by", []);
    assert last + [] == last;
    PlaceholdersOfText(" seconds by ", last);
    PlaceholdersOfField("duration", afterDuration);
    PlaceholdersOfText(" was banned for ", fromDuration);
    PlaceholdersOfField("username", mid);
  }

  // The text each template produces once its fields have values.

  lemma SubscriptionTemplateText(args: map<string, string>)
    requires "username" in args && "months" in args
    ensures Format(SUBSCRIPTION_CONTENT_TEMPLATE, args) ==
            Some(args["username"] + " subscribed for " + args["months"] + " months")
  {
    var u, m := args["username"], args["months"];
    var tail := Field("months") + " months";
    var mid := " subscribed for " + tail;
    assert Format(tail, args) == Some(m + " months") by {
      FormatOfLiteral(" months", args);
      FormatOfField("months", " months", args);
    }
    assert Format(mid, args) == Some(" subscribed for " + (m + " months")) by {
      FormatOfText(" subscribed for ", tail, args);
    }
    assert Format(SUBSCRIPTION_CONTENT_TEMPLATE, args) == Some(u + (" subscribed for " + (m + " months"))) by {
      FormatOfField("username", mid, args);
    }
    assert u + (" subscribed for " + (m + " months")) == u + " subscribed for " + m + " months";
  }

  lemma PermanentBanTemplateText(args: map<string, string>)
    requires "username" in args && "banned_by" in args
    ensures Format(USER_BANNED_PERMANENT_TEMPLATE, args) ==
            Some(args["username"] + " was banned permanently by " + args["banned_by"])
  {
    var mid := " was banned permanently by " + Field("banned_by");
    FormatOfLastField("banned_by", args);
    FormatOfText(" was banned permanently by ", Field("banned_by"), args);
    FormatOfField("username", mid, args);
    var u, b := args["username"], args["banned_by"];
    assert u + (" was banned permanently by " + b) == u + " was banned permanently by " + b;
  }

  lemma TemporaryBanTemplateText(args: map<string, string>)
    requires "username" in args && "duration" in args && "banned_by" in args
    ensures Format(USER_BANNED_TEMPORARY_TEMPLATE, args) ==
            Some(args["username"] + " was banned for " + args["duration"] + " seconds by " + args["banned_by"])
  {
    var u, d, b := args["username"], args["duration"], args["banned_by"];
    var afterDuration := " seconds by " + Field("banned_by");
    var fromDuration := Field("duration") + afterDuration;
    var mid := " was banned for " + fromDuration;
    assert Format(afterDuration, args) == Some(" seconds by " + b) by {
      FormatOfLastField("banned_by", args);
      FormatOfText(" seconds by ", Field("banned_by"), args);
    }
    assert Format(fromDuration, args) == Some(d + (" seconds by " + b)) by {
      FormatOfField("duration", afterDuration, args);
    }
    assert Format(mid, args) == Some(" was banned for " + (d + (" seconds by " + b))) by {
      FormatOfText(" was banned for ", fromDuration, args);
    }
    assert Format(USER_BANNED_TEMPORARY_TEMPLATE, args) == Some(u + (" was banned for " + (d + (" seconds by " + b)))) by {
      FormatOfField("username", mid, args);
    }
    assert u + (" was banned for " + (d + (" seconds by " + b))) ==
           u + " was banned for " + d + " seconds by " + b;
  }

  lemma UnbannedTemplateText(args: map<string, string>)
    requires "username" in args && "unbanned_by" in args
    ensures Format(USER_UNBANNED_TEMPLATE, args) ==
            Some(args["username"] + " was unbanned by " + args["unbanned_by"])
  {
    var mid := " was unbanned by " + Field("unbanned_by");
    FormatOfLastField("unbanned_by", args);
    FormatOfText(" was unbanned by ", Field("unbanned_by"), args);
    FormatOfField("username", mid, args);
    var u, b := args["username"], args["unbanned_by"];
    assert u + (" was unbanned by " + b) == u + " was unbanned by " + b;
  }

  lemma PinnedTemplateText(args: map<string, string>)
    requires "content" in args
    ensures Format(MESSAGE_PINNED_TEMPLATE, args) == Some("Message pinned: " + args["content"])
  {
    FormatOfLastField("content", args);
    FormatOfText("Message pinned: ", Field("content"), args);
  }

  lemma SentTemplateText(args: map<string, string>)
    requires "message_type" in args && "action" in args
    ensures Format(MESSAGE_SENT_TEMPLATE, args) ==
            Some("Message sent (" + args["message_type"] + "): " + args["action"])
  {
    var tail := "): " + Field("action");
    var mid := Field("message_type") + tail;
    FormatOfLastField("action", args);
    FormatOfText("): ", Field("action"), args);
    FormatOfField("message_type", tail, args);
    FormatOfText("Message sent (", mid, args);
    var t, a := args["message_type"], args["action"];
    assert "Message sent (" + (t + ("): " + a)) == "Message sent (" + t + "): " + a;
  }

  lemma StreamHostTemplateText(args: map<string, string>)
    requires "host_username" in args && "number_viewers" in args
    ensures Format(STREAM_HOST_TEMPLATE, args) ==
            Some(args["host_username"] + " is hosting the stream with " + args["number_viewers"] + " viewers")
  {
    var tail := Field("number_viewers") + " viewers";
    var mid := " is hosting the stream with " + tail;
    FormatOfLiteral(" viewers", args);
    FormatOfField("number_viewers", " viewers", args);
    FormatOfText(" is hosting the stream with ", tail, args);
    FormatOfField("host_username", mid, args);
    var h, n := args["host_username"], args["number_viewers"];
    assert h + (" is hosting the stream with " + (n + " viewers")) ==
           h + " is hosting the stream with " + n + " viewers";
  }
}
