/**
 * The Bitrix24 credential store: two independent per-chat maps (webhook URL and
 * user id) that are read from their snapshot files at start-up and written back
 * in full after every change.
 */
module Credentials {

  import opened Wrappers

  /** A snapshot file: absent, or holding the whole map it was written from. */
  type Snapshot = Option<map<int, string>>

  /** What loading a snapshot yields: nothing when the file does not exist. */
  function Contents(file: Snapshot): map<int, string> {
    if file.Some? then file.value else map[]
  }

  /** The durable storage: the two files that survive a restart of the process. */
  class Disk {
    var webhooksFile: Snapshot
    var userIdsFile: Snapshot

    constructor (webhooks: Snapshot, userIds: Snapshot)
      ensures webhooksFile == webhooks && userIdsFile == userIds
    {
      webhooksFile := webhooks;
      userIdsFile := userIds;
    }
  }

  /** A non-empty set of chat ids has a member to pick. */
  lemma NonEmptyHasMember(s: set<int>)
    requires s != {}
    ensures exists c :: c in s
  {
    // were every id outside `s`, `s` would equal `{}` by extensionality
    if forall c :: c !in s {
      assert false;
    }
  }

  /**
   * Rebuilds a map from a snapshot by setting its entries one at a time into
   * `into`, as the `for` loop over the parsed file does; entries of the file win
   * over what `into` already held.
   */
  method Restore(into: map<int, string>, file: Snapshot) returns (m: map<int, string>)
    ensures m.Keys == into.Keys + Contents(file).Keys
    ensures forall c :: c in Contents(file) ==> m[c] == Contents(file)[c]
    ensures forall c :: c in into && c !in Contents(file) ==> m[c] == into[c]
    ensures m == into + Contents(file)
  {
    m := into;
    if file.Some? {
      var entries := file.value;
      var pending := entries.Keys;
      while pending != {}
        invariant pending <= entries.Keys
        invariant m.Keys == into.Keys + (entries.Keys - pending)
        invariant forall c :: c in entries.Keys - pending ==> m[c] == entries[c]
        invariant forall c :: c in into && c !in entries.Keys - pending ==> m[c] == into[c]
        decreases pending
      {
        NonEmptyHasMember(pending);
        var key :| key in pending;
        m := m[key := entries[key]];
        pending := pending - {key};
      }
    }
  }

  class CredentialStore {
    const disk: Disk
    var userWebhooks: map<int, string>
    var userIds: map<int, string>

    /** The in-memory maps are exactly what a restart would load from the disk. */
    ghost predicate Valid()
      reads this, disk
    {
      userWebhooks == Contents(disk.webhooksFile) && userIds == Contents(disk.userIdsFile)
    }

    /** Starts from empty maps and loads both snapshot files. */
    constructor (disk: Disk)
      ensures this.disk == disk && Valid()
    {
      this.disk := disk;
      userWebhooks := map[];
      userIds := map[];
      new;
      LoadWebhooks();
      LoadUserIds();
    }

    method LoadWebhooks()
      modifies this`userWebhooks
      ensures userWebhooks == old(userWebhooks) + Contents(disk.webhooksFile)
    {
      userWebhooks := Restore(userWebhooks, disk.webhooksFile);
    }

    method LoadUserIds()
      modifies this`userIds
      ensures userIds == old(userIds) + Contents(disk.userIdsFile)
    {
      userIds := Restore(userIds, disk.userIdsFile);
    }

    /** Overwrites the webhook file with the whole current map. */
    method SaveWebhooks()
      modifies disk`webhooksFile
      ensures disk.webhooksFile == Some(userWebhooks)
    {
      disk.webhooksFile := Some(userWebhooks);
    }

    /** Overwrites the user-id file with the whole current map. */
    method SaveUserIds()
      modifies disk`userIdsFile
      ensures disk.userIdsFile == Some(userIds)
    {
      disk.userIdsFile := Some(userIds);
    }

    method SetUserWebhook(chatId: int, webhookUrl: string)
      requires Valid()
      modifies this`userWebhooks, disk`webhooksFile
      ensures Valid()
      ensures userWebhooks == old(userWebhooks)[chatId := webhookUrl]
      ensures disk.webhooksFile == Some(userWebhooks)
      ensures userIds == old(userIds) && disk.userIdsFile == old(disk.userIdsFile)
    {
      userWebhooks := userWebhooks[chatId := webhookUrl];
      SaveWebhooks();
    }

    method SetUserId(chatId: int, userId: string)
      requires Valid()
      modifies this`userIds, disk`userIdsFile
      ensures Valid()
      ensures userIds == old(userIds)[chatId := userId]
      ensures disk.userIdsFile == Some(userIds)
      ensures userWebhooks == old(userWebhooks) && disk.webhooksFile == old(disk.webhooksFile)
    {
      userIds := userIds[chatId := userId];
      SaveUserIds();
    }

    /** The webhook URL of a chat, `None` standing for `undefined`. */
    function GetUserWebhook(chatId: int): (r: Option<string>)
      reads this
      ensures r.Some? <==> chatId in userWebhooks
      ensures r.Some? ==> r.value == userWebhooks[chatId]
    {
      if chatId in userWebhooks then Some(userWebhooks[chatId]) else None
    }

    /** The Bitrix24 user id of a chat, `None` standing for `undefined`. */
    function GetUserId(chatId: int): (r: Option<string>)
      reads this
      ensures r.Some? <==> chatId in userIds
      ensures r.Some? ==> r.value == userIds[chatId]
    {
      if chatId in userIds then Some(userIds[chatId]) else None
    }
  }

  /** A restart: a new store over the same disk sees exactly the maps the old store held. */
  method Restart(store: CredentialStore) returns (next: CredentialStore)
    requires store.Valid()
    ensures fresh(next) && next.disk == store.disk && next.Valid()
    ensures next.userWebhooks == store.userWebhooks && next.userIds == store.userIds
    ensures forall c :: next.GetUserWebhook(c) == store.GetUserWebhook(c) && next.GetUserId(c) == store.GetUserId(c)
  {
    next := new CredentialStore(store.disk);
  }

  /** Setting the same webhook twice leaves the map and the file as one call leaves them. */
  method SetUserWebhookTwice(store: CredentialStore, chatId: int, webhookUrl: string)
    requires store.Valid()
    modifies store`userWebhooks, store.disk`webhooksFile
    ensures store.Valid()
    ensures store.userWebhooks == old(store.userWebhooks)[chatId := webhookUrl]
    ensures store.disk.webhooksFile == Some(old(store.userWebhooks)[chatId := webhookUrl])
  {
    store.SetUserWebhook(chatId, webhookUrl);
    store.SetUserWebhook(chatId, webhookUrl);
  }

  /** Setting the same user id twice leaves the map and the file as one call leaves them. */
  method SetUserIdTwice(store: CredentialStore, chatId: int, userId: string)
    requires store.Valid()
    modifies store`userIds, store.disk`userIdsFile
    ensures store.Valid()
    ensures store.userIds == old(store.userIds)[chatId := userId]
    ensures store.disk.userIdsFile == Some(old(store.userIds)[chatId := userId])
  {
    store.SetUserId(chatId, userId);
    store.SetUserId(chatId, userId);
  }
}
