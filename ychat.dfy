/**
 * The collaborative chat document on the server
 * (packages/jupyterlab-collaborative-chat/jupyterlab_collaborative_chat/ychat.py):
 * two shared maps, `users` and `messages`, read back as a JSON document by
 * `get` and merged from a JSON document by `set`.
 */
module YChatDoc {
  import opened Wrappers

  /** A decoded JSON value. Numbers are kept as their literal text. */
  datatype Json =
    | JNull
    | JBool(b: bool)
    | JNumber(literal: string)
    | JString(s: string)
    | JArray(items: seq<Json>)
    | JObject(fields: map<string, Json>)

  /** The document's format version. */
  const Version := "1.0.0"

  /** The contents of the two shared maps. */
  datatype Doc = Doc(users: map<string, Json>, messages: map<string, Json>)

  /** How `set` ends: normally, or by raising because the input is not shaped as expected. */
  datatype SetOutcome = Completed | Raised

  datatype SetResult = SetResult(doc: Doc, outcome: SetOutcome)

  /**
   * `m` after `m.update({k: v})` for every entry of `updates`: the updated keys
   * take their new values, the other keys keep theirs, and no key is removed.
   */
  function Overwrite(m: map<string, Json>, updates: map<string, Json>): (r: map<string, Json>)
    ensures r.Keys == m.Keys + updates.Keys
    ensures forall k :: k in updates ==> r[k] == updates[k]
    ensures forall k :: k in m && k !in updates ==> r[k] == m[k]
  {
    m + updates
  }

  /**
   * One of the two blocks of `set`: the map `m` after merging the entry `key` of
   * the decoded document, or None when that entry is not a JSON object (Python
   * raises on `.items()` before updating anything).
   */
  function MergeEntry(m: map<string, Json>, fields: map<string, Json>, key: string): (r: Option<map<string, Json>>)
    ensures key !in fields ==> r == Some(m)
    ensures key in fields && fields[key].JObject? ==> r == Some(Overwrite(m, fields[key].fields))
    ensures key in fields && !fields[key].JObject? ==> r.None?
    ensures r.Some? ==> m.Keys <= r.value.Keys
  {
    if key !in fields then Some(m)
    else match fields[key]
      case JObject(items) => Some(Overwrite(m, items))
      case _ => None
  }

  /**
   * The effect of `set` on the document, given the decoded input (None when the
   * text is not JSON, which `set` treats as an empty object). Any other value
   * than an object makes `contents.keys()` raise before anything changes.
   */
  function ApplySet(d: Doc, contents: Option<Json>): (r: SetResult)
    ensures contents.None? ==> r == SetResult(d, Completed)
    ensures d.users.Keys <= r.doc.users.Keys && d.messages.Keys <= r.doc.messages.Keys
  {
    match contents
    case None => SetResult(d, Completed)
    case Some(JObject(fields)) =>
      (match MergeEntry(d.users, fields, "users")
       case None => SetResult(d, Raised)
       case Some(users) =>
         match MergeEntry(d.messages, fields, "messages")
         case None => SetResult(Doc(users, d.messages), Raised)
         case Some(messages) => SetResult(Doc(users, messages), Completed))
    case Some(_) => SetResult(d, Raised)
  }

  /** `set` merges the "users" object of its input into the users map. */
  lemma SetMergesUsers(d: Doc, fields: map<string, Json>, items: map<string, Json>)
    requires "users" in fields && fields["users"] == JObject(items)
    ensures ApplySet(d, Some(JObject(fields))).doc.users == Overwrite(d.users, items)
  {
  }

  /**
   * `set` merges the "messages" object of its input into the messages map,
   * unless the "users" entry made it raise first.
   */
  lemma SetMergesMessages(d: Doc, fields: map<string, Json>, items: map<string, Json>)
    requires "messages" in fields && fields["messages"] == JObject(items)
    requires "users" in fields ==> fields["users"].JObject?
    ensures ApplySet(d, Some(JObject(fields))).outcome == Completed
    ensures ApplySet(d, Some(JObject(fields))).doc.messages == Overwrite(d.messages, items)
  {
  }

  /** A key absent from the input leaves its map alone: the two maps update independently. */
  lemma SetMapsIndependent(d: Doc, fields: map<string, Json>)
    ensures "users" !in fields ==> ApplySet(d, Some(JObject(fields))).doc.users == d.users
    ensures "messages" !in fields ==> ApplySet(d, Some(JObject(fields))).doc.messages == d.messages
  {
  }

  /** One more `update({k: v})` with an entry still pending extends the merged part by that entry. */
  lemma OverwriteOneMore(m: map<string, Json>, items: map<string, Json>, pending: set<string>, k: string)
    requires k in pending && pending <= items.Keys
    ensures Overwrite(m, items - pending)[k := items[k]] == Overwrite(m, items - (pending - {k}))
  {
  }

  class YChat {
    var users: map<string, Json>
    var messages: map<string, Json>

    /** A new document: both maps empty. */
    constructor ()
      ensures users == map[] && messages == map[]
    {
      users := map[];
      messages := map[];
    }

    /** The current contents of the two maps. */
    function State(): Doc
      reads this
    {
      Doc(users, messages)
    }

    /** `get_users`: the users map wrapped under the single key "users". */
    function GetUsers(): (r: map<string, Json>)
      reads this
      ensures r.Keys == {"users"} && r["users"] == JObject(users)
    {
      map["users" := JObject(users)]
    }

    /** `get_messages`: the messages map wrapped under the single key "messages". */
    function GetMessages(): (r: map<string, Json>)
      reads this
      ensures r.Keys == {"messages"} && r["messages"] == JObject(messages)
    {
      map["messages" := JObject(messages)]
    }

    /** `get`: the document with its "messages" and "users" entries, before JSON encoding. */
    function Get(): (j: Json)
      reads this
      ensures j.JObject? && j.fields.Keys == {"messages", "users"}
      ensures j.fields["messages"] == JObject(messages) && j.fields["users"] == JObject(users)
    {
      JObject(map["messages" := GetMessages()["messages"], "users" := GetUsers()["users"]])
    }

    /**
     * `set`, given the decoded input: first every entry of its "users" object is
     * written into the users map, then every entry of its "messages" object into
     * the messages map; no key is ever removed.
     */
    method Set(contents: Option<Json>) returns (outcome: SetOutcome)
      modifies this
      ensures SetResult(State(), outcome) == ApplySet(old(State()), contents)
    {
      outcome := Completed;
      if contents.None? {
        return;
      }
      if !contents.value.JObject? {
        return Raised;
      }
      var fields := contents.value.fields;
      if "users" in fields {
        if !fields["users"].JObject? {
          return Raised;
        }
        var items := fields["users"].fields;
        var pending := items.Keys;
        while pending != {}
          invariant pending <= items.Keys
          invariant users == Overwrite(old(users), items - pending)
          invariant messages == old(messages)
          decreases pending
        {
          var k :| k in pending;
          OverwriteOneMore(old(users), items, pending, k);
          users := users[k := items[k]];
          pending := pending - {k};
        }
        assert items - pending == items;
      }
      if "messages" in fields {
        if !fields["messages"].JObject? {
          return Raised;
        }
        var items := fields["messages"].fields;
        var pending := items.Keys;
        ghost var mergedUsers := users;
        while pending != {}
          invariant pending <= items.Keys
          invariant messages == Overwrite(old(messages), items - pending)
          invariant users == mergedUsers
          decreases pending
        {
          var k :| k in pending;
          OverwriteOneMore(old(messages), items, pending, k);
          messages := messages[k := items[k]];
          pending := pending - {k};
        }
        assert items - pending == items;
      }
    }
  }

  /** Feeding `get`'s document back to `set` changes nothing and completes normally. */
  lemma SetOfGetIsIdentity(c: YChat)
    ensures ApplySet(c.State(), Some(c.Get())) == SetResult(c.State(), Completed)
  {
  }
}
