/** `ChatDB` of static/db.js: the browser's store of saved chats, an object
    store keyed by `id` with an index on `timestamp`. The store is a map
    from id to record; opening the database, `crypto.randomUUID` and
    `Date.now` are parameters. */
module ChatDB {
  import opened Outcomes
  import opened ChatTypes

  const NewChatTitle := "New Chat"

  datatype Chat = Chat(id: string, messages: seq<Message>, timestamp: int, title: string)

  /** The fields an update may carry; `None` is a field the object does not have. */
  datatype Updates = Updates(id: Option<string>, messages: Option<seq<Message>>, title: Option<string>)

  /** The record an update starts from: the stored one, or a fresh default. */
  function Existing(store: map<string, Chat>, id: string, now: int): Chat {
    if id in store then store[id] else Chat(id, [], now, NewChatTitle)
  }

  /** `{...existing, ...updates, messages: updates.messages || existing.messages || [], timestamp: now}`. */
  function Merge(existing: Chat, u: Updates, now: int): Chat {
    Chat(u.id.GetOr(existing.id), u.messages.GetOr(existing.messages), now, u.title.GetOr(existing.title))
  }

  /** Applying the same update twice at the same time is the same as once. */
  lemma MergeIdempotent(existing: Chat, u: Updates, now: int)
    ensures Merge(Merge(existing, u, now), u, now) == Merge(existing, u, now)
  {
  }

  /** An update with no fields only moves the timestamp. */
  lemma EmptyUpdateTouchesOnly(existing: Chat, now: int)
    ensures Merge(existing, Updates(None, None, None), now) == existing.(timestamp := now)
  {
  }

  /** Fields an update leaves out keep their values, the fields it carries
      win, and the timestamp is always the time of the update. */
  lemma MergeOverrides(existing: Chat, u: Updates, now: int)
    ensures u.messages.Some? ==> Merge(existing, u, now).messages == u.messages.value
    ensures u.messages.None? ==> Merge(existing, u, now).messages == existing.messages
    ensures u.title.Some? ==> Merge(existing, u, now).title == u.title.value
    ensures u.title.None? ==> Merge(existing, u, now).title == existing.title
    ensures u.id.Some? ==> Merge(existing, u, now).id == u.id.value
    ensures u.id.None? ==> Merge(existing, u, now).id == existing.id
    ensures Merge(existing, u, now).timestamp == now
  {
  }

  /** Updating a chat that is not stored starts from the default record:
      no messages unless the update brings some, and the default title
      unless it brings one. */
  lemma UpdateAbsentStartsFromDefault(store: map<string, Chat>, id: string, u: Updates, now: int)
    requires id !in store
    ensures var c := Merge(Existing(store, id, now), u, now);
      && c.messages == u.messages.GetOr([])
      && c.title == u.title.GetOr(NewChatTitle)
      && c.id == u.id.GetOr(id)
      && c.timestamp == now
  {
  }

  /** Every record is stored under its own id. */
  ghost predicate KeyedById(store: map<string, Chat>) {
    forall k :: k in store ==> store[k].id == k
  }

  /** `rows` is what the `timestamp` index's `getAll` gives: every stored
      record exactly once, by ascending timestamp. */
  ghost predicate IsIndexOrder(rows: seq<Chat>, store: map<string, Chat>) {
    && |rows| == |store|
    && (forall i :: 0 <= i < |rows| ==> rows[i].id in store && store[rows[i].id] == rows[i])
    && (forall i, j :: 0 <= i < j < |rows| ==> rows[i].id != rows[j].id)
    && (forall i, j :: 0 <= i < j < |rows| ==> rows[i].timestamp <= rows[j].timestamp)
  }

  /** `rows.reverse()`. */
  function Reverse(rows: seq<Chat>): (r: seq<Chat>)
    ensures |r| == |rows|
    ensures forall i :: 0 <= i < |rows| ==> r[i] == rows[|rows| - 1 - i]
  {
    if rows == [] then [] else [rows[|rows| - 1]] + Reverse(rows[..|rows| - 1])
  }

  /** Reversing the index order lists every record once, newest first. */
  lemma NewestFirst(rows: seq<Chat>, store: map<string, Chat>)
    requires IsIndexOrder(rows, store)
    ensures var r := Reverse(rows);
      && |r| == |store|
      && (forall i :: 0 <= i < |r| ==> r[i].id in store && store[r[i].id] == r[i])
      && (forall i, j :: 0 <= i < j < |r| ==> r[i].id != r[j].id)
      && (forall i, j :: 0 <= i < j < |r| ==> r[i].timestamp >= r[j].timestamp)
  {
    var r := Reverse(rows);
    var n := |rows|;
    forall i, j | 0 <= i < j < |r| ensures r[i].timestamp >= r[j].timestamp && r[i].id != r[j].id {
      assert r[i] == rows[n - 1 - i] && r[j] == rows[n - 1 - j];
    }
    forall i | 0 <= i < |r| ensures r[i].id in store && store[r[i].id] == r[i] {
      assert r[i] == rows[n - 1 - i];
    }
  }

  class ChatStore {
    /** The contents of the `chats` object store. */
    var store: map<string, Chat>
    /** `this.db` has been set. */
    var isOpen: bool

    ghost predicate Valid()
      reads this
    {
      KeyedById(store)
    }

    constructor (initial: map<string, Chat>)
      requires KeyedById(initial)
      ensures Valid() && store == initial && !isOpen
    {
      store := initial;
      isOpen := false;
    }

    /** `init`: does nothing once the database is open; otherwise opens it
        (`opens` says whether the open request succeeds). */
    method Init(opens: bool) returns (ok: bool)
      modifies this
      ensures store == old(store)
      ensures old(isOpen) ==> ok && isOpen
      ensures !old(isOpen) ==> ok == opens && isOpen == opens
    {
      if isOpen {
        return true;
      }
      if opens {
        isOpen := true;
      }
      return opens;
    }

    /** `createChat`: adds a record with the new id, no messages, the
        current time and the default title, and returns it. `add` refuses an
        id already in use, and then nothing changes. */
    method CreateChat(opens: bool, uuid: string, now: int) returns (r: Result<Chat, string>)
      requires Valid()
      modifies this
      ensures Valid()
      ensures r.Success? <==> (old(isOpen) || opens) && uuid !in old(store)
      ensures r.Success? ==> r.value == Chat(uuid, [], now, NewChatTitle) && store == old(store)[uuid := r.value]
      ensures r.Failure? ==> store == old(store)
    {
      var ok := Init(opens);
      if !ok {
        return Failure("could not open the database");
      }
      if uuid in store {
        return Failure("ConstraintError");
      }
      var chat := Chat(uuid, [], now, NewChatTitle);
      store := store[uuid := chat];
      return Success(chat);
    }

    /** `getChat`: the record with that id, or `undefined`. */
    method GetChat(opens: bool, id: string) returns (r: Result<Option<Chat>, string>)
      requires Valid()
      modifies this
      ensures store == old(store)
      ensures r.Success? <==> old(isOpen) || opens
      ensures r.Success? ==> (r.value.Some? <==> id in store) && (id in store ==> r.value.value == store[id])
    {
      var ok := Init(opens);
      if !ok {
        return Failure("could not open the database");
      }
      if id in store {
        return Success(Some(store[id]));
      }
      return Success(None);
    }

    /** `updateChat`: merges the update into the stored record (or a default
        one) and puts the result, under the id it ends up with; no other
        record changes. */
    method UpdateChat(opens: bool, id: string, u: Updates, now: int) returns (r: Result<Chat, string>)
      requires Valid()
      modifies this
      ensures Valid()
      ensures r.Success? <==> old(isOpen) || opens
      ensures r.Success? ==> r.value == Merge(Existing(old(store), id, now), u, now)
      ensures r.Success? ==> store == old(store)[r.value.id := r.value]
      ensures r.Failure? ==> store == old(store)
    {
      var ok := Init(opens);
      if !ok {
        return Failure("could not open the database");
      }
      var existing := Existing(store, id, now);
      var updated := Merge(existing, u, now);
      store := store[updated.id := updated];
      return Success(updated);
    }

    /** `getAllChats`: the timestamp index read in full, reversed. */
    method GetAllChats(opens: bool, rows: seq<Chat>) returns (r: Result<seq<Chat>, string>)
      requires Valid() && IsIndexOrder(rows, store)
      modifies this
      ensures store == old(store)
      ensures r.Success? <==> old(isOpen) || opens
      ensures r.Success? ==> r.value == Reverse(rows)
      ensures r.Success? ==> forall i, j :: 0 <= i < j < |r.value| ==> r.value[i].timestamp >= r.value[j].timestamp
    {
      var ok := Init(opens);
      if !ok {
        return Failure("could not open the database");
      }
      NewestFirst(rows, store);
      return Success(Reverse(rows));
    }

    /** `deleteChat`: removes the record with that id, if any, and no other. */
    method DeleteChat(opens: bool, id: string) returns (r: Result<(), string>)
      requires Valid()
      modifies this
      ensures Valid()
      ensures r.Success? <==> old(isOpen) || opens
      ensures r.Success? ==> store == old(store) - {id}
      ensures r.Failure? ==> store == old(store)
    {
      var ok := Init(opens);
      if !ok {
        return Failure("could not open the database");
      }
      store := store - {id};
      return Success(());
    }
  }

  /** An update that does not rename the record is read back by `getChat`
      under the same id, and leaves every other record as it was. */
  lemma UpdateThenGet(store: map<string, Chat>, id: string, u: Updates, now: int)
    requires KeyedById(store) && u.id.None?
    ensures var c := Merge(Existing(store, id, now), u, now);
      var store' := store[c.id := c];
      && c.id == id && id in store' && store'[id] == c
      && (forall k :: k in store && k != id ==> k in store' && store'[k] == store[k])
      && KeyedById(store')
  {
  }
}
