/** The persisted chat store (`useChatStore`): the stored messages, a context
    record, and a flag set once the persisted copy has been read back.

    Messages are untyped JSON values; a message's id is its "id" property.
    The context is an object whose properties are merged on update.
 */
module ChatStore {
  import opened Wrappers
  import opened Json

  datatype ChatState = ChatState(messages: seq<Json>, context: map<string, Json>, hasHydrated: bool)

  const Initial := ChatState([], map[], false)

  /** `m.id === id`: only an object whose "id" property is that string. */
  predicate HasId(m: Json, id: string) {
    m.Obj? && "id" in m.fields && m.fields["id"] == Str(id)
  }

  function SetMessages(s: ChatState, messages: seq<Json>): (t: ChatState)
    ensures t.messages == messages && t.context == s.context && t.hasHydrated == s.hasHydrated
  {
    s.(messages := messages)
  }

  /** `addMessage`: the message goes last. */
  function AddMessage(s: ChatState, message: Json): (t: ChatState)
    ensures |t.messages| == |s.messages| + 1
    ensures t.messages[..|s.messages|] == s.messages && t.messages[|s.messages|] == message
    ensures t.context == s.context && t.hasHydrated == s.hasHydrated
  {
    s.(messages := s.messages + [message])
  }

  /** `{...m, ...updates}`: the update's properties replace or join the
      message's own. */
  function Merge(m: Json, updates: map<string, Json>): (r: Json)
    requires m.Obj?
    ensures r.Obj? && r.fields.Keys == m.fields.Keys + updates.Keys
    ensures forall k :: k in updates ==> r.fields[k] == updates[k]
    ensures forall k :: k in m.fields && k !in updates ==> r.fields[k] == m.fields[k]
  {
    Obj(m.fields + updates)
  }

  /** `updateMessage`: every message with the id is merged with the update;
      the others and the order are untouched. */
  function UpdateMessage(s: ChatState, id: string, updates: map<string, Json>): (t: ChatState)
    ensures |t.messages| == |s.messages|
    ensures forall i :: 0 <= i < |s.messages| && !HasId(s.messages[i], id) ==> t.messages[i] == s.messages[i]
    ensures forall i :: 0 <= i < |s.messages| && HasId(s.messages[i], id) ==> t.messages[i] == Merge(s.messages[i], updates)
    ensures t.context == s.context && t.hasHydrated == s.hasHydrated
  {
    s.(messages := seq(|s.messages|, i requires 0 <= i < |s.messages| =>
      if HasId(s.messages[i], id) then Merge(s.messages[i], updates) else s.messages[i]))
  }

  /** Applying the same update twice is applying it once, as long as the
      update does not change the id itself. */
  lemma UpdateMessageIdempotent(s: ChatState, id: string, updates: map<string, Json>)
    requires "id" in updates ==> updates["id"] == Str(id)
    ensures UpdateMessage(UpdateMessage(s, id, updates), id, updates) == UpdateMessage(s, id, updates)
  {
    var once := UpdateMessage(s, id, updates);
    var twice := UpdateMessage(once, id, updates);
    forall i | 0 <= i < |s.messages|
      ensures twice.messages[i] == once.messages[i]
    {
      if HasId(s.messages[i], id) {
        var m := s.messages[i].fields;
        assert m + updates + updates == m + updates;
      }
    }
  }

  /** Updating an id no message has changes nothing. */
  lemma UpdateUnknownId(s: ChatState, id: string, updates: map<string, Json>)
    requires forall i :: 0 <= i < |s.messages| ==> !HasId(s.messages[i], id)
    ensures UpdateMessage(s, id, updates) == s
  {
  }

  /** `setContext`: the given properties replace or join the current ones. */
  function SetContext(s: ChatState, context: map<string, Json>): (t: ChatState)
    ensures t.context.Keys == s.context.Keys + context.Keys
    ensures forall k :: k in context ==> t.context[k] == context[k]
    ensures forall k :: k in s.context && k !in context ==> t.context[k] == s.context[k]
    ensures t.messages == s.messages && t.hasHydrated == s.hasHydrated
  {
    s.(context := s.context + context)
  }

  /** Two context updates in a row are one update with both, the later
      winning. */
  lemma SetContextTwice(s: ChatState, a: map<string, Json>, b: map<string, Json>)
    ensures SetContext(SetContext(s, a), b) == SetContext(s, a + b)
  {
    assert s.context + a + b == s.context + (a + b);
  }

  /** `clearChat`: messages and context go; the hydration flag stays. */
  function ClearChat(s: ChatState): (t: ChatState)
    ensures t.messages == [] && t.context == map[]
    ensures t.hasHydrated == s.hasHydrated
  {
    s.(messages := [], context := map[])
  }

  lemma ClearChatFromInitialFlags(s: ChatState)
    ensures ClearChat(s) == Initial <==> !s.hasHydrated
  {
  }

  function SetHasHydrated(s: ChatState, value: bool): (t: ChatState)
    ensures t.hasHydrated == value && t.messages == s.messages && t.context == s.context
  {
    s.(hasHydrated := value)
  }

  /** The part of the state written to local storage. */
  datatype Persisted = Persisted(messages: seq<Json>, context: map<string, Json>, hasHydrated: bool)

  function Persist(s: ChatState): Persisted {
    Persisted(s.messages, s.context, s.hasHydrated)
  }

  /** Reading the stored copy back: `stored` is what the storage produced
      (`None` when nothing was stored); when reading fails the store is left
      as it is and the flag is not set. */
  function Rehydrate(s: ChatState, stored: Result<Option<Persisted>>): (t: ChatState)
    ensures stored.Err? ==> t == s
    ensures stored.Ok? ==> t.hasHydrated
    ensures stored.Ok? && stored.value.None? ==> t.messages == s.messages && t.context == s.context
    ensures stored.Ok? && stored.value.Some? ==>
      t.messages == stored.value.value.messages && t.context == stored.value.value.context
  {
    match stored
    case Err(_) => s
    case Ok(None) => SetHasHydrated(s, true)
    case Ok(Some(p)) => SetHasHydrated(ChatState(p.messages, p.context, p.hasHydrated), true)
  }

  /** A stored conversation comes back as it was saved. */
  lemma PersistRehydrate(s: ChatState, current: ChatState)
    ensures Rehydrate(current, Ok(Some(Persist(s)))) == SetHasHydrated(s, true)
  {
  }
}
