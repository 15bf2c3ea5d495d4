/** The pure helpers of the storage class: its own copies of the channel-name
    sanitiser, the table naming, the timestamp normaliser and the event-to-row
    preparers. The database routines around them are not modelled. */
module Storage {
  import opened PyValues
  import opened KickEvents
  import Config
  import SanitizeValidate
  import DataPreparation

  /** `sanitize_channel_name`: lower-case, strip, then replace every
      character outside `[a-zA-Z0-9_]` by '_'. */
  function SanitizeChannelName(name: string): string {
    SanitizeValidate.ReplaceDisallowed(SanitizeValidate.Strip(SanitizeValidate.Lower(name)))
  }

  /** `_get_channel_table_name`. */
  function ChannelTableName(channelName: string): string {
    Config.CHANNEL_TABLE_PREFIX + SanitizeChannelName(channelName)
  }

  /** `_normalize_timestamp`: like the utility, but without a `datetime`
      branch, so a `datetime` (always truthy) falls through to None. */
  function NormalizeTimestamp(ts: SanitizeValidate.Timestamp): Cell {
    match ts
    case DateTimeValue(_) => NoneCell
    case JsonTimestamp(v) =>
      if !Truthy(v) then NoneCell
      else
        match v
        case JInt(i) => UtcIso(i)
        case JBool(_) => UtcIso(1)
        case JStr(s) => Plain(JStr(s))
        case _ => NoneCell
  }

  function NormalizeJson(v: Json): Cell {
    NormalizeTimestamp(SanitizeValidate.JsonTimestamp(v))
  }

  /** `_prepare_event_data`: the same eleven-entry table and generic
      fallback, with the storage normaliser behind the chat-message-sent row. */
  function PrepareEventData(ev: KickEvent): Outcome<DataPreparation.Row> {
    DataPreparation.PrepareWith(NormalizeJson, ev)
  }

  // ---------------------------------------------------------------------------
  // Properties.

  /** The storage sanitiser keeps `[a-z0-9_]`, is idempotent, and agrees with
      the utility's. */
  lemma SanitizeProperties(name: string)
    ensures SanitizeValidate.AllNameChars(SanitizeChannelName(name))
    ensures SanitizeChannelName(SanitizeChannelName(name)) == SanitizeChannelName(name)
    ensures SanitizeChannelName(name) == SanitizeValidate.SanitizeChannelName(name)
  {
    SanitizeValidate.SanitizeCharClass(name);
    SanitizeValidate.SanitizeIdempotent(name);
  }

  /** A storage table name is the prefix followed by the sanitised name, uses
      only `[a-z0-9_]`, and is the utility's table name. */
  lemma TableNameProperties(channelName: string)
    ensures var t := ChannelTableName(channelName);
            t[..|Config.CHANNEL_TABLE_PREFIX|] == Config.CHANNEL_TABLE_PREFIX
            && t[|Config.CHANNEL_TABLE_PREFIX|..] == SanitizeChannelName(channelName)
            && SanitizeValidate.AllNameChars(t)
            && t == SanitizeValidate.GetChannelTableName(channelName)
    ensures ChannelTableName(SanitizeChannelName(channelName)) == ChannelTableName(channelName)
  {
    SanitizeValidate.TableNameShape(channelName);
    SanitizeValidate.TableNameOfSanitized(channelName);
  }

  /** Falsy input gives None, a non-empty string passes through, and any value
      that is neither a number nor a string, a `datetime` included, gives None. */
  lemma NormalizeTimestampBranches(ts: SanitizeValidate.Timestamp)
    ensures ts.DateTimeValue? ==> NormalizeTimestamp(ts) == NoneCell
    ensures ts.JsonTimestamp? && !Truthy(ts.v) ==> NormalizeTimestamp(ts) == NoneCell
    ensures ts.JsonTimestamp? && ts.v.JStr? && ts.v.s != [] ==> NormalizeTimestamp(ts) == Plain(ts.v)
    ensures ts.JsonTimestamp? && (ts.v.JList? || ts.v.JObj? || ts.v.JNull?) ==> NormalizeTimestamp(ts) == NoneCell
  {
  }

  /** The two normalisers differ exactly on `datetime` values: decoded values
      are treated alike, and a `datetime` gives None here but its ISO text in
      the utility. */
  lemma NormalizersDifferOnlyOnDateTime(ts: SanitizeValidate.Timestamp)
    ensures ts.JsonTimestamp? ==> NormalizeTimestamp(ts) == SanitizeValidate.NormalizeTimestamp(ts)
    ensures ts.DateTimeValue? ==>
              NormalizeTimestamp(ts) == NoneCell
              && SanitizeValidate.NormalizeTimestamp(ts) == Plain(JStr(ts.isoformat + "Z"))
  {
  }

  /** Rows prepared by the preparer table depend on the normaliser only
      through the values it gives. */
  lemma PrepareWithNormalizerValues(f: DataPreparation.Normalizer, g: DataPreparation.Normalizer, ev: KickEvent)
    requires forall v :: f(v) == g(v)
    ensures DataPreparation.PrepareWith(f, ev) == DataPreparation.PrepareWith(g, ev)
  {
    DataPreparation.DispatchSelectsPreparer(f, ev);
    DataPreparation.DispatchSelectsPreparer(g, ev);
  }

  /** Since every payload value is a decoded value, the storage copy prepares
      the same row as the utility, or raises the same error. */
  lemma PrepareCopiesAgree(ev: KickEvent)
    ensures PrepareEventData(ev) == DataPreparation.PrepareEventData(ev)
  {
    forall v
      ensures NormalizeJson(v) == DataPreparation.NormalizeJson(v)
    {
      NormalizersDifferOnlyOnDateTime(SanitizeValidate.JsonTimestamp(v));
    }
    PrepareWithNormalizerValues(NormalizeJson, DataPreparation.NormalizeJson, ev);
  }

  /** The storage table is keyed by the handled events and falls back to the
      generic preparer; ban and deletion rows pick their template by the
      truthiness of `permanent` and `aiModerated`; every row carries the event
      type and the serialised envelope. */
  lemma StorageDispatch(ev: KickEvent)
    ensures DataPreparation.PrepareMethods(NormalizeJson).Keys == Config.HANDLED_EVENTS
    ensures ev.event !in Config.HANDLED_EVENTS ==>
              PrepareEventData(ev) == DataPreparation.PrepareGenericData(ev.data, ev.event)
    ensures var r := PrepareEventData(ev);
            r.Returned? ==>
              r.value.eventType == DataPreparation.Text(ev.event)
              && r.value.rawPayload == DataPreparation.RawPayload(ev.event, ev.data)
    ensures ev.event == Config.USER_BANNED_EVENT ==>
              PrepareEventData(ev) == DataPreparation.PrepareUserBannedData(ev.data, ev.event)
    ensures ev.event == Config.MESSAGE_DELETED_EVENT ==>
              PrepareEventData(ev) == DataPreparation.PrepareMessageDeletedData(ev.data, ev.event)
  {
    DataPreparation.PrepareMethodsKeys(NormalizeJson);
    DataPreparation.DispatchSelectsPreparer(NormalizeJson, ev);
    DataPreparation.RowEnvelope(NormalizeJson, ev);
  }
}
