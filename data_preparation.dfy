/** Event-to-row preparation: a closed table of eleven preparers keyed by
    event type, and a generic fallback. Each preparer maps a payload to the
    ten columns of a chat-table row. */
module DataPreparation {
  import opened PyValues
  import opened Config
  import opened KickEvents
  import SanitizeValidate

  /** The ten columns of a row, in insertion order. */
  datatype Row = Row(
    eventType: Cell,
    eventId: Cell,
    chatroomId: Cell,
    timestamp: Cell,
    userId: Cell,
    username: Cell,
    content: Cell,
    senderData: Cell,
    metadata: Cell,
    rawPayload: Cell)

  /** A preparer takes the payload and the event type. */
  type Preparer = (Json, string) -> Outcome<Row>

  /** The timestamp normaliser a preparer table is built with. */
  type Normalizer = Json -> Cell

  /** `json.dumps({"event": event_type, "data": payload})`, the last column of every row. */
  function RawPayload(eventType: string, data: Json): Cell {
    Dumps(JObj(map["event" := JStr(eventType), "data" := data]))
  }

  function Text(s: string): Cell { Plain(JStr(s)) }

  /** `data.get(key, {})` can be used with `.get` afterwards: the key is
      missing or holds a dict. */
  predicate DictOrAbsent(data: Json, key: string)
    requires data.JObj?
  {
    key !in data.fields || data.fields[key].JObj?
  }

  /** The value Python's `data.get(key, default)` returns on a dict. */
  function GetValue(data: Json, key: string, default: Json): Json
    requires data.JObj?
  {
    if key in data.fields then data.fields[key] else default
  }

  // ---------------------------------------------------------------------------
  // The preparers, one per handled event type.

  function PrepareChatMessageData(data: Json, eventType: string): Outcome<Row> {
    var sender :- GetOr(data, "sender", EmptyDict);
    var senderRaw :- Get(data, "sender");
    var metadata :- Get(data, "metadata");
    var id :- Get(data, "id");
    var chatroomId :- Get(data, "chatroom_id");
    var createdAt :- Get(data, "created_at");
    var userId :- Get(sender, "id");
    var username :- Get(sender, "username");
    var content :- Get(data, "content");
    Returned(Row(Text(eventType), Plain(id), Plain(chatroomId), Plain(createdAt),
                 Plain(userId), Plain(username), Plain(content),
                 if Truthy(senderRaw) then Dumps(senderRaw) else NoneCell,
                 if Truthy(metadata) then Dumps(metadata) else NoneCell,
                 RawPayload(eventType, data)))
  }

  function PrepareSubscriptionData(data: Json, eventType: string): Outcome<Row> {
    var username :- GetOr(data, "username", JStr("Unknown"));
    var months :- GetOr(data, "months", JInt(0));
    var chatroomId :- Get(data, "chatroom_id");
    Returned(Row(Text(eventType), NoneCell, Plain(chatroomId), NoneCell, NoneCell, Plain(username),
                 Formatted(SUBSCRIPTION_CONTENT_TEMPLATE, map["username" := username, "months" := months]),
                 Dumps(JObj(map["username" := username, "months" := months])),
                 Dumps(JObj(map["months" := months])),
                 RawPayload(eventType, data)))
  }

  function PrepareUserBannedData(data: Json, eventType: string): Outcome<Row> {
    var user :- GetOr(data, "user", EmptyDict);
    var bannedByDict :- GetOr(data, "banned_by", EmptyDict);
    var username :- GetOr(user, "username", JStr("Unknown"));
    var bannedBy :- GetOr(bannedByDict, "username", JStr("Unknown"));
    var permanent :- Get(data, "permanent");
    var durationOrZero :- GetOr(data, "duration", JInt(0));
    var content :=
      if Truthy(permanent) then
        Formatted(USER_BANNED_PERMANENT_TEMPLATE, map["username" := username, "banned_by" := bannedBy])
      else
        Formatted(USER_BANNED_TEMPORARY_TEMPLATE,
                  map["username" := username, "duration" := durationOrZero, "banned_by" := bannedBy]);
    var id :- Get(data, "id");
    var expiresAt :- Get(data, "expires_at");
    var userId :- Get(user, "id");
    var bannedByUsername :- Get(bannedByDict, "username");
    var duration :- Get(data, "duration");
    Returned(Row(Text(eventType), Plain(id), NoneCell, Plain(expiresAt), Plain(userId), Plain(username),
                 content, Dumps(user),
                 Dumps(JObj(map["banned_by" := bannedByDict, "banned_by_username" := bannedByUsername,
                                "permanent" := permanent, "duration" := duration,
                                "expires_at" := expiresAt])),
                 RawPayload(eventType, data)))
  }

  function PrepareUserUnbannedData(data: Json, eventType: string): Outcome<Row> {
    var user :- GetOr(data, "user", EmptyDict);
    var unbannedByDict :- GetOr(data, "unbanned_by", EmptyDict);
    var username :- GetOr(user, "username", JStr("Unknown"));
    var unbannedBy :- GetOr(unbannedByDict, "username", JStr("Unknown"));
    var id :- Get(data, "id");
    var userId :- Get(user, "id");
    var unbannedByUsername :- Get(unbannedByDict, "username");
    var permanent :- Get(data, "permanent");
    Returned(Row(Text(eventType), Plain(id), NoneCell, NoneCell, Plain(userId), Plain(username),
                 Formatted(USER_UNBANNED_TEMPLATE, map["username" := username, "unbanned_by" := unbannedBy]),
                 Dumps(user),
                 Dumps(JObj(map["unbanned_by" := unbannedByDict, "unbanned_by_username" := unbannedByUsername,
                                "permanent" := permanent])),
                 RawPayload(eventType, data)))
  }

  function PrepareMessageDeletedData(data: Json, eventType: string): Outcome<Row> {
    var message :- GetOr(data, "message", EmptyDict);
    var aiModerated :- GetOr(data, "aiModerated", JBool(false));
    var content := Text(if Truthy(aiModerated) then MESSAGE_DELETED_AI_TEMPLATE else MESSAGE_DELETED_MANUAL_TEMPLATE);
    var id :- Get(data, "id");
    var messageId :- Get(message, "id");
    var violatedRules :- GetOr(data, "violatedRules", JList([]));
    Returned(Row(Text(eventType), Plain(id), NoneCell, NoneCell, NoneCell, NoneCell, content, NoneCell,
                 Dumps(JObj(map["deleted_message_id" := messageId, "aiModerated" := aiModerated,
                                "violatedRules" := violatedRules])),
                 RawPayload(eventType, data)))
  }

  function PreparePinnedMessageData(data: Json, eventType: string): Outcome<Row> {
    var message :- GetOr(data, "message", EmptyDict);
    var pinnedBy :- GetOr(data, "pinnedBy", EmptyDict);
    var sender :- GetOr(message, "sender", EmptyDict);
    var messageContent :- GetOr(message, "content", JStr(""));
    var id :- Get(message, "id");
    var chatroomId :- Get(message, "chatroom_id");
    var createdAt :- Get(message, "created_at");
    var senderId :- Get(sender, "id");
    var senderUsername :- Get(sender, "username");
    var duration :- Get(data, "duration");
    var pinnedByUsername :- Get(pinnedBy, "username");
    var originalMetadata :- Get(message, "metadata");
    Returned(Row(Text(eventType), Plain(id), Plain(chatroomId), Plain(createdAt),
                 Plain(senderId), Plain(senderUsername),
                 Formatted(MESSAGE_PINNED_TEMPLATE, map["content" := messageContent]),
                 Dumps(sender),
                 Dumps(JObj(map["duration" := duration, "pinnedBy" := pinnedBy,
                                "pinned_by_username" := pinnedByUsername,
                                "original_metadata" := originalMetadata])),
                 RawPayload(eventType, data)))
  }

  function PrepareChatMessageSentData(data: Json, eventType: string, normalize: Normalizer): Outcome<Row> {
    var message :- GetOr(data, "message", EmptyDict);
    var user :- GetOr(data, "user", EmptyDict);
    var action :- GetOr(message, "action", JStr(""));
    var messageType :- GetOr(message, "type", JStr(""));
    var createdAt :- Get(message, "created_at");
    var id :- Get(message, "id");
    var chatroomId :- Get(message, "chatroom_id");
    var userId :- Get(user, "id");
    var username :- Get(user, "username");
    var monthsSubscribed :- Get(message, "months_subscribed");
    var subscriptionsCount :- Get(message, "subscriptions_count");
    Returned(Row(Text(eventType), Plain(id), Plain(chatroomId), normalize(createdAt),
                 Plain(userId), Plain(username),
                 Formatted(MESSAGE_SENT_TEMPLATE, map["message_type" := messageType, "action" := action]),
                 Dumps(user),
                 Dumps(JObj(map["message_info" := message, "months_subscribed" := monthsSubscribed,
                                "subscriptions_count" := subscriptionsCount])),
                 RawPayload(eventType, data)))
  }

  function PrepareChatroomUpdatedData(data: Json, eventType: string): Outcome<Row> {
    var id :- Get(data, "id");
    var slowMode :- Get(data, "slow_mode");
    var subscribersMode :- Get(data, "subscribers_mode");
    var followersMode :- Get(data, "followers_mode");
    var emotesMode :- Get(data, "emotes_mode");
    var botProtection :- Get(data, "advanced_bot_protection");
    var accountAge :- Get(data, "account_age");
    Returned(Row(Text(eventType), Plain(id), NoneCell, NoneCell, NoneCell, NoneCell,
                 Text(CHATROOM_UPDATED_TEMPLATE), NoneCell,
                 Dumps(JObj(map["slow_mode" := slowMode, "subscribers_mode" := subscribersMode,
                                "followers_mode" := followersMode, "emotes_mode" := emotesMode,
                                "advanced_bot_protection" := botProtection,
                                "account_age" := accountAge])),
                 RawPayload(eventType, data)))
  }

  function PrepareStreamHostData(data: Json, eventType: string): Outcome<Row> {
    var hostUsername :- GetOr(data, "host_username", JStr("Unknown"));
    var numberViewers :- GetOr(data, "number_viewers", JInt(0));
    var chatroomId :- Get(data, "chatroom_id");
    var optionalMessage :- Get(data, "optional_message");
    Returned(Row(Text(eventType), NoneCell, Plain(chatroomId), NoneCell, NoneCell, Plain(hostUsername),
                 Formatted(STREAM_HOST_TEMPLATE, map["host_username" := hostUsername,
                                                     "number_viewers" := numberViewers]),
                 NoneCell,
                 Dumps(JObj(map["host_username" := hostUsername, "number_viewers" := numberViewers,
                                "optional_message" := optionalMessage])),
                 RawPayload(eventType, data)))
  }

  /** The only preparer that never reads the payload, so it never raises. */
  function PreparePinnedMessageDeletedData(data: Json, eventType: string): Outcome<Row> {
    Returned(Row(Text(eventType), NoneCell, NoneCell, NoneCell, NoneCell, NoneCell,
                 Text(PINNED_MESSAGE_DELETED_TEMPLATE), NoneCell, Dumps(EmptyDict),
                 RawPayload(eventType, data)))
  }

  function PrepareChatroomClearData(data: Json, eventType: string): Outcome<Row> {
    var id :- Get(data, "id");
    Returned(Row(Text(eventType), Plain(id), NoneCell, NoneCell, NoneCell, NoneCell,
                 Text(CHATROOM_CLEAR_TEMPLATE), NoneCell, Dumps(JObj(map["clear_id" := id])),
                 RawPayload(eventType, data)))
  }

  /** The fallback for event types outside the table: the content is `str(payload)`. */
  function PrepareGenericData(data: Json, eventType: string): Outcome<Row> {
    var id :- Get(data, "id");
    var chatroomId :- Get(data, "chatroom_id");
    var createdAt :- Get(data, "created_at");
    var username :- Get(data, "username");
    Returned(Row(Text(eventType), Plain(id), Plain(chatroomId), Plain(createdAt), NoneCell, Plain(username),
                 Repr(data), NoneCell, Dumps(data), RawPayload(eventType, data)))
  }

  // ---------------------------------------------------------------------------
  // Dispatch.

  /** The preparer table, built with the given timestamp normaliser. */
  function PrepareMethods(normalize: Normalizer): map<string, Preparer> {
    map[
      CHAT_MESSAGE_EVENT := PrepareChatMessageData,
      SUBSCRIPTION_EVENT := PrepareSubscriptionData,
      USER_BANNED_EVENT := PrepareUserBannedData,
      USER_UNBANNED_EVENT := PrepareUserUnbannedData,
      MESSAGE_DELETED_EVENT := PrepareMessageDeletedData,
      PINNED_MESSAGE_CREATED_EVENT := PreparePinnedMessageData,
      CHAT_MESSAGE_SENT_EVENT := (data: Json, eventType: string) => PrepareChatMessageSentData(data, eventType, normalize),
      CHATROOM_UPDATED_EVENT := PrepareChatroomUpdatedData,
      STREAM_HOST_EVENT := PrepareStreamHostData,
      PINNED_MESSAGE_DELETED_EVENT := PreparePinnedMessageDeletedData,
      CHATROOM_CLEAR_EVENT := PrepareChatroomClearData
    ]
  }

  /** Looks the event type up in the table, falling back to the generic preparer. */
  function PrepareWith(normalize: Normalizer, ev: KickEvent): Outcome<Row> {
    var methods := PrepareMethods(normalize);
    var prepare := if ev.event in methods then methods[ev.event] else PrepareGenericData;
    prepare(ev.data, ev.event)
  }

  /** `normalize_timestamp` applied to a decoded value. */
  function NormalizeJson(v: Json): Cell {
    SanitizeValidate.NormalizeTimestamp(SanitizeValidate.JsonTimestamp(v))
  }

  /** `prepare_event_data`. */
  function PrepareEventData(ev: KickEvent): Outcome<Row> {
    PrepareWith(NormalizeJson, ev)
  }

  // ---------------------------------------------------------------------------
  // Dispatch properties.

  /** The table is keyed by exactly the handled event types. */
  lemma PrepareMethodsKeys(normalize: Normalizer)
    ensures PrepareMethods(normalize).Keys == HANDLED_EVENTS
  {
  }

  /** Each of the eleven handled types selects its own preparer; every other
      type selects the generic one. */
  lemma DispatchSelectsPreparer(normalize: Normalizer, ev: KickEvent)
    ensures ev.event == CHAT_MESSAGE_EVENT ==>
              PrepareWith(normalize, ev) == PrepareChatMessageData(ev.data, ev.event)
    ensures ev.event == SUBSCRIPTION_EVENT ==>
              PrepareWith(normalize, ev) == PrepareSubscriptionData(ev.data, ev.event)
    ensures ev.event == USER_BANNED_EVENT ==>
              PrepareWith(normalize, ev) == PrepareUserBannedData(ev.data, ev.event)
    ensures ev.event == USER_UNBANNED_EVENT ==>
              PrepareWith(normalize, ev) == PrepareUserUnbannedData(ev.data, ev.event)
    ensures ev.event == MESSAGE_DELETED_EVENT ==>
              PrepareWith(normalize, ev) == PrepareMessageDeletedData(ev.data, ev.event)
    ensures ev.event == PINNED_MESSAGE_CREATED_EVENT ==>
              PrepareWith(normalize, ev) == PreparePinnedMessageData(ev.data, ev.event)
    ensures ev.event == CHAT_MESSAGE_SENT_EVENT ==>
              PrepareWith(normalize, ev) == PrepareChatMessageSentData(ev.data, ev.event, normalize)
    ensures ev.event == CHATROOM_UPDATED_EVENT ==>
              PrepareWith(normalize, ev) == PrepareChatroomUpdatedData(ev.data, ev.event)
    ensures ev.event == STREAM_HOST_EVENT ==>
              PrepareWith(normalize, ev) == PrepareStreamHostData(ev.data, ev.event)
    ensures ev.event == PINNED_MESSAGE_DELETED_EVENT ==>
              PrepareWith(normalize, ev) == PreparePinnedMessageDeletedData(ev.data, ev.event)
    ensures ev.event == CHATROOM_CLEAR_EVENT ==>
              PrepareWith(normalize, ev) == PrepareChatroomClearData(ev.data, ev.event)
    ensures ev.event !in HANDLED_EVENTS ==>
              PrepareWith(normalize, ev) == PrepareGenericData(ev.data, ev.event)
  {
  }

  /** Every row starts with the event type and ends with the serialised
      envelope of type and payload. */
  lemma RowEnvelope(normalize: Normalizer, ev: KickEvent)
    ensures var r := PrepareWith(normalize, ev);
            r.Returned? ==> r.value.eventType == Text(ev.event) && r.value.rawPayload == RawPayload(ev.event, ev.data)
  {
    DispatchSelectsPreparer(normalize, ev);
    var d, t := ev.data, ev.event;
    var r := PrepareWith(normalize, ev);
    if t == CHAT_MESSAGE_EVENT {
      assert r == PrepareChatMessageData(d, t);
    } else if t == SUBSCRIPTION_EVENT {
      assert r == PrepareSubscriptionData(d, t);
    } else if t == USER_BANNED_EVENT {
      assert r == PrepareUserBannedData(d, t);
    } else if t == USER_UNBANNED_EVENT {
      assert r == PrepareUserUnbannedData(d, t);
    } else if t == MESSAGE_DELETED_EVENT {
      assert r == PrepareMessageDeletedData(d, t);
    } else if t == PINNED_MESSAGE_CREATED_EVENT {
      assert r == PreparePinnedMessageData(d, t);
    } else if t == CHAT_MESSAGE_SENT_EVENT {
      assert r == PrepareChatMessageSentData(d, t, normalize);
    } else if t == CHATROOM_UPDATED_EVENT {
      assert r == PrepareChatroomUpdatedData(d, t);
    } else if t == STREAM_HOST_EVENT {
      assert r == PrepareStreamHostData(d, t);
    } else if t == PINNED_MESSAGE_DELETED_EVENT {
      assert r == PreparePinnedMessageDeletedData(d, t);
    } else if t == CHATROOM_CLEAR_EVENT {
      assert r == PrepareChatroomClearData(d, t);
    } else {
      assert r == PrepareGenericData(d, t);
    }
  }

  /** A preparer fails only by calling `.get` on something that is not a dict. */
  lemma PreparerErrorsAreAttributeErrors(normalize: Normalizer, ev: KickEvent)
    ensures PrepareWith(normalize, ev).Raised? ==> PrepareWith(normalize, ev).error == AttributeError
  {
    DispatchSelectsPreparer(normalize, ev);
  }

  /** A payload that is not a dict makes every preparer raise, except the
      pinned-message-deleted one, which never reads it. */
  lemma NonDictPayload(normalize: Normalizer, ev: KickEvent)
    requires !ev.data.JObj?
    ensures PrepareWith(normalize, ev).Raised? <==> ev.event != PINNED_MESSAGE_DELETED_EVENT
  {
    DispatchSelectsPreparer(normalize, ev);
  }

  // ---------------------------------------------------------------------------
  // Row contents, preparer by preparer.

  /** Chat message rows: user id and name come from `sender` (defaulting to an
      empty dict), and the serialised sender and metadata are None when those
      fields are missing or falsy. */
  lemma ChatMessageRow(data: Json, eventType: string)
    ensures PrepareChatMessageData(data, eventType).Returned? <==> data.JObj? && DictOrAbsent(data, "sender")
    ensures PrepareChatMessageData(data, eventType).Returned? ==>
              var r := PrepareChatMessageData(data, eventType).value;
              var sender := GetValue(data, "sender", EmptyDict);
              var senderRaw := GetValue(data, "sender", JNull);
              var metadata := GetValue(data, "metadata", JNull);
              r.eventId == Plain(GetValue(data, "id", JNull))
              && r.timestamp == Plain(GetValue(data, "created_at", JNull))
              && r.userId == Plain(GetValue(sender, "id", JNull))
              && r.username == Plain(GetValue(sender, "username", JNull))
              && r.content == Plain(GetValue(data, "content", JNull))
              && (r.senderData == NoneCell <==> !Truthy(senderRaw))
              && (Truthy(senderRaw) ==> r.senderData == Dumps(senderRaw))
              && (r.metadata == NoneCell <==> !Truthy(metadata))
              && (Truthy(metadata) ==> r.metadata == Dumps(metadata))
  {
  }

  /** Subscription rows: the user name defaults to "Unknown" and the months to
      0, the content is the subscription template over those two, and the
      event id, timestamp and user id are None. */
  lemma SubscriptionRow(data: Json, eventType: string)
    ensures PrepareSubscriptionData(data, eventType).Returned? <==> data.JObj?
    ensures data.JObj? ==>
              var r := PrepareSubscriptionData(data, eventType).value;
              var username := GetValue(data, "username", JStr("Unknown"));
              var months := GetValue(data, "months", JInt(0));
              r.eventId == NoneCell && r.timestamp == NoneCell && r.userId == NoneCell
              && r.username == Plain(username)
              && r.content == Formatted(SUBSCRIPTION_CONTENT_TEMPLATE, map["username" := username, "months" := months])
              && (Str(username).Some? && Str(months).Some? ==>
                    Render(r.content) == Some(Str(username).value + " subscribed for " + Str(months).value + " months"))
  {
    if data.JObj? {
      var r := PrepareSubscriptionData(data, eventType).value;
      var username := GetValue(data, "username", JStr("Unknown"));
      var months := GetValue(data, "months", JInt(0));
      var args := map["username" := username, "months" := months];
      if Str(username).Some? && Str(months).Some? {
        assert forall k | k in args :: k == "username" || k == "months";
        var texts := StrArgs(args).value;
        assert texts["username"] == Str(username).value && texts["months"] == Str(months).value;
        SubscriptionTemplateText(texts);
      }
    }
  }

  /** Ban rows: a truthy `permanent` selects the permanent template; otherwise
      the temporary template is used, with the duration defaulting to 0. Both
      user and moderator names default to "Unknown". */
  lemma UserBannedRow(data: Json, eventType: string)
    ensures PrepareUserBannedData(data, eventType).Returned? <==>
              data.JObj? && DictOrAbsent(data, "user") && DictOrAbsent(data, "banned_by")
    ensures PrepareUserBannedData(data, eventType).Returned? ==>
              var r := PrepareUserBannedData(data, eventType).value;
              var user := GetValue(data, "user", EmptyDict);
              var username := GetValue(user, "username", JStr("Unknown"));
              var bannedBy := GetValue(GetValue(data, "banned_by", EmptyDict), "username", JStr("Unknown"));
              r.username == Plain(username)
              && r.userId == Plain(GetValue(user, "id", JNull))
              && r.timestamp == Plain(GetValue(data, "expires_at", JNull))
              && r.senderData == Dumps(user)
              && (Truthy(GetValue(data, "permanent", JNull)) ==>
                    r.content == Formatted(USER_BANNED_PERMANENT_TEMPLATE,
                                           map["username" := username, "banned_by" := bannedBy]))
              && (!Truthy(GetValue(data, "permanent", JNull)) ==>
                    r.content == Formatted(USER_BANNED_TEMPORARY_TEMPLATE,
                                           map["username" := username,
                                               "duration" := GetValue(data, "duration", JInt(0)),
                                               "banned_by" := bannedBy]))
  {
  }

  /** Unban rows: the unban template over the user and the moderator, each
      defaulting to "Unknown". */
  lemma UserUnbannedRow(data: Json, eventType: string)
    ensures PrepareUserUnbannedData(data, eventType).Returned? <==>
              data.JObj? && DictOrAbsent(data, "user") && DictOrAbsent(data, "unbanned_by")
    ensures PrepareUserUnbannedData(data, eventType).Returned? ==>
              var r := PrepareUserUnbannedData(data, eventType).value;
              var user := GetValue(data, "user", EmptyDict);
              var username := GetValue(user, "username", JStr("Unknown"));
              var unbannedBy := GetValue(GetValue(data, "unbanned_by", EmptyDict), "username", JStr("Unknown"));
              r.username == Plain(username) && r.timestamp == NoneCell
              && r.content == Formatted(USER_UNBANNED_TEMPLATE, map["username" := username, "unbanned_by" := unbannedBy])
  {
  }

  /** Deletion rows: a truthy `aiModerated` (default False) selects the AI
      template, otherwise the manual one; `violatedRules` defaults to []. */
  lemma MessageDeletedRow(data: Json, eventType: string)
    ensures PrepareMessageDeletedData(data, eventType).Returned? <==> data.JObj? && DictOrAbsent(data, "message")
    ensures PrepareMessageDeletedData(data, eventType).Returned? ==>
              var r := PrepareMessageDeletedData(data, eventType).value;
              var aiModerated := GetValue(data, "aiModerated", JBool(false));
              var message := GetValue(data, "message", EmptyDict);
              r.content == Text(if Truthy(aiModerated) then MESSAGE_DELETED_AI_TEMPLATE else MESSAGE_DELETED_MANUAL_TEMPLATE)
              && r.metadata == Dumps(JObj(map["deleted_message_id" := GetValue(message, "id", JNull),
                                              "aiModerated" := aiModerated,
                                              "violatedRules" := GetValue(data, "violatedRules", JList([]))]))
              && r.userId == NoneCell && r.username == NoneCell && r.senderData == NoneCell
  {
  }

  /** Pinned-message rows describe the pinned message and its sender; the
      content is the pinned template over the message text (default ""). */
  lemma PinnedMessageRow(data: Json, eventType: string)
    ensures PreparePinnedMessageData(data, eventType).Returned? <==>
              data.JObj? && DictOrAbsent(data, "message") && DictOrAbsent(data, "pinnedBy")
              && DictOrAbsent(GetValue(data, "message", EmptyDict), "sender")
    ensures PreparePinnedMessageData(data, eventType).Returned? ==>
              var r := PreparePinnedMessageData(data, eventType).value;
              var message := GetValue(data, "message", EmptyDict);
              var sender := GetValue(message, "sender", EmptyDict);
              r.eventId == Plain(GetValue(message, "id", JNull))
              && r.userId == Plain(GetValue(sender, "id", JNull))
              && r.senderData == Dumps(sender)
              && r.content == Formatted(MESSAGE_PINNED_TEMPLATE, map["content" := GetValue(message, "content", JStr(""))])
  {
  }

  /** Chat-message-sent rows take their timestamp from `message.created_at`
      through the normaliser, and format type and action (default "") into
      the content. */
  lemma ChatMessageSentRow(data: Json, eventType: string, normalize: Normalizer)
    ensures PrepareChatMessageSentData(data, eventType, normalize).Returned? <==>
              data.JObj? && DictOrAbsent(data, "message") && DictOrAbsent(data, "user")
    ensures PrepareChatMessageSentData(data, eventType, normalize).Returned? ==>
              var r := PrepareChatMessageSentData(data, eventType, normalize).value;
              var message := GetValue(data, "message", EmptyDict);
              var user := GetValue(data, "user", EmptyDict);
              r.timestamp == normalize(GetValue(message, "created_at", JNull))
              && r.userId == Plain(GetValue(user, "id", JNull))
              && r.content == Formatted(MESSAGE_SENT_TEMPLATE,
                                        map["message_type" := GetValue(message, "type", JStr("")),
                                            "action" := GetValue(message, "action", JStr(""))])
  {
  }

  /** Through the table, a text `created_at` is stored as it is and a missing
      or falsy one as None. */
  lemma ChatMessageSentTimestamp(ev: KickEvent)
    requires ev.event == CHAT_MESSAGE_SENT_EVENT
    ensures var r := PrepareEventData(ev);
            r.Returned? ==>
              var createdAt := GetValue(GetValue(ev.data, "message", EmptyDict), "created_at", JNull);
              (createdAt.JStr? && createdAt.s != [] ==> r.value.timestamp == Plain(createdAt))
              && (!Truthy(createdAt) ==> r.value.timestamp == NoneCell)
  {
    DispatchSelectsPreparer(NormalizeJson, ev);
    ChatMessageSentRow(ev.data, ev.event, NormalizeJson);
  }

  /** Stream-host rows: host name defaults to "Unknown" and the viewer count
      to 0, both formatted into the content. */
  lemma StreamHostRow(data: Json, eventType: string)
    ensures PrepareStreamHostData(data, eventType).Returned? <==> data.JObj?
    ensures data.JObj? ==>
              var r := PrepareStreamHostData(data, eventType).value;
              var host := GetValue(data, "host_username", JStr("Unknown"));
              var viewers := GetValue(data, "number_viewers", JInt(0));
              r.username == Plain(host)
              && r.content == Formatted(STREAM_HOST_TEMPLATE, map["host_username" := host, "number_viewers" := viewers])
  {
  }

  /** Chatroom-updated, pinned-deleted and clear rows carry fixed content;
      the pinned-deleted row never fails and its metadata is `dumps({})`. */
  lemma FixedContentRows(data: Json, eventType: string)
    ensures PrepareChatroomUpdatedData(data, eventType).Returned? <==> data.JObj?
    ensures data.JObj? ==> PrepareChatroomUpdatedData(data, eventType).value.content == Text(CHATROOM_UPDATED_TEMPLATE)
    ensures PreparePinnedMessageDeletedData(data, eventType).Returned?
    ensures PreparePinnedMessageDeletedData(data, eventType).value.content == Text(PINNED_MESSAGE_DELETED_TEMPLATE)
    ensures PreparePinnedMessageDeletedData(data, eventType).value.metadata == Dumps(EmptyDict)
    ensures PrepareChatroomClearData(data, eventType).Returned? <==> data.JObj?
    ensures data.JObj? ==>
              var r := PrepareChatroomClearData(data, eventType).value;
              r.content == Text(CHATROOM_CLEAR_TEMPLATE)
              && r.metadata == Dumps(JObj(map["clear_id" := GetValue(data, "id", JNull)]))
  {
  }

  /** Generic rows: the content is `str(payload)` and the metadata is the
      serialised payload. */
  lemma GenericRow(data: Json, eventType: string)
    ensures PrepareGenericData(data, eventType).Returned? <==> data.JObj?
    ensures data.JObj? ==>
              var r := PrepareGenericData(data, eventType).value;
              r.content == Repr(data) && r.metadata == Dumps(data) && r.userId == NoneCell
              && r.username == Plain(GetValue(data, "username", JNull))
  {
  }
}
