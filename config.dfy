/**
 * serversConfig: one record per guild, created with defaults on first access.
 * JavaScript iterates an object's (non-index) keys in insertion order, so the
 * store keeps that order beside the records.
 */
module ServersConfig {
  import opened Wrappers
  import opened Discord
  import JsText

  datatype GuildRecord = GuildRecord(
    alertChannelId: Option<ChannelId>,
    setupMessageId: Option<MessageId>,
    mcServerIp: Option<string>,
    mcServerPort: int,
    isSetup: bool)

  /** The record a guild gets on first access. */
  const DefaultRecord: GuildRecord := GuildRecord(None, None, None, JsText.DefaultPort, false)

  /** `!!mcServerIp`: an address is stored and it is not the empty string. */
  predicate HasEndpoint(r: GuildRecord)
  {
    r.mcServerIp.Some? && r.mcServerIp.value != ""
  }

  /** Every operation keeps this: a guild is only marked set up once an address is stored. */
  predicate Consistent(r: GuildRecord)
  {
    r.isSetup ==> r.mcServerIp.Some?
  }

  /** The record getServerConfig would return: the stored one, or the defaults. */
  function Lookup(m: map<GuildId, GuildRecord>, g: GuildId): GuildRecord
  {
    if g in m then m[g] else DefaultRecord
  }

  datatype Store = Store(records: map<GuildId, GuildRecord>, order: seq<GuildId>)

  /**
   * The key order lists each stored guild once, and every record is consistent:
   * the last key in the order is stored, consistent, and the rest of the order
   * is valid for the other records. ListedShape states this pointwise.
   */
  ghost predicate Valid(s: Store)
  {
    Listed(s.records, s.order)
  }

  ghost predicate Listed(records: map<GuildId, GuildRecord>, order: seq<GuildId>)
    decreases |order|
  {
    if order == [] then records == map[]
    else
      var g := order[|order| - 1];
      g in records && Consistent(records[g]) && Listed(records - {g}, order[..|order| - 1])
  }

  /** A valid store's order has no repeated guild, lists exactly the stored guilds, and every record is consistent. */
  lemma {:induction false} ListedShape(records: map<GuildId, GuildRecord>, order: seq<GuildId>)
    requires Listed(records, order)
    ensures forall i, j :: 0 <= i < j < |order| ==> order[i] != order[j]
    ensures forall g :: g in records <==> g in order
    ensures forall g :: g in records ==> Consistent(records[g])
    decreases |order|
  {
    if order != [] {
      var last := order[|order| - 1];
      var init := order[..|order| - 1];
      ListedShape(records - {last}, init);
      assert order == init + [last];
      forall i, j | 0 <= i < j < |order|
        ensures order[i] != order[j]
      {
        if j == |order| - 1 {
          assert order[i] in init;
        } else {
          assert order[i] == init[i] && order[j] == init[j];
        }
      }
    }
  }

  /** Every guild the order lists is stored, with a consistent record. */
  lemma ListedAt(records: map<GuildId, GuildRecord>, order: seq<GuildId>, i: nat)
    requires Listed(records, order) && i < |order|
    ensures order[i] in records && Consistent(records[order[i]])
  {
    ListedShape(records, order);
    assert order[i] in order;
  }

  /** Every stored record of a valid store is consistent. */
  lemma ListedConsistent(records: map<GuildId, GuildRecord>, order: seq<GuildId>, g: GuildId)
    requires Listed(records, order) && g in records
    ensures Consistent(records[g])
  {
    ListedShape(records, order);
  }

  /** Replacing a stored record by a consistent one keeps the store valid. */
  lemma {:induction false} ListedPut(records: map<GuildId, GuildRecord>, order: seq<GuildId>, g: GuildId, r: GuildRecord)
    requires Listed(records, order) && g in records && Consistent(r)
    ensures Listed(records[g := r], order)
    decreases |order|
  {
    var last := order[|order| - 1];
    var init := order[..|order| - 1];
    if last == g {
      assert records[g := r] - {g} == records - {g};
    } else {
      assert records[g := r] - {last} == (records - {last})[g := r];
      ListedPut(records - {last}, init, g, r);
    }
  }

  /**
   * getServerConfig's effect on the store: an unknown guild gets the default
   * record, appended to the key order; nothing else changes.
   */
  function Touch(s: Store, g: GuildId): (t: Store)
    ensures g in t.records && t.records[g] == Lookup(s.records, g)
  {
    if g in s.records then s else Store(s.records[g := DefaultRecord], s.order + [g])
  }

  /** getServerConfig adds the guild's key, and appends it to the order only when it is new. */
  lemma TouchShape(s: Store, g: GuildId)
    ensures Touch(s, g).records.Keys == s.records.Keys + {g}
    ensures Touch(s, g).order == if g in s.records then s.order else s.order + [g]
  {
  }

  /** getServerConfig changes no answer: stored records stay, and an unknown guild's record is the default it would have got. */
  lemma TouchLookup(s: Store, g: GuildId, h: GuildId)
    ensures h in s.records ==> Touch(s, g).records[h] == s.records[h]
    ensures Lookup(Touch(s, g).records, h) == Lookup(s.records, h)
  {
  }

  /** A new guild's key is appended once and its default record is consistent. */
  lemma TouchValid(s: Store, g: GuildId)
    requires Valid(s)
    ensures Valid(Touch(s, g))
  {
    if g !in s.records {
      var t := Touch(s, g);
      assert t.records - {g} == s.records;
      assert t.order[..|t.order| - 1] == s.order;
    }
  }

  /** The store after getServerConfig for each of the first k guilds of gs in turn. */
  function TouchAll(s: Store, gs: seq<GuildId>, k: nat): Store
    requires k <= |gs|
  {
    if k == 0 then s else Touch(TouchAll(s, gs, k - 1), gs[k - 1])
  }

  /** Accessing guilds never changes what getServerConfig answers for a guild. */
  lemma {:induction false} TouchAllLookup(s: Store, gs: seq<GuildId>, k: nat, h: GuildId)
    requires k <= |gs|
    ensures Lookup(TouchAll(s, gs, k).records, h) == Lookup(s.records, h)
  {
    if k != 0 {
      TouchAllLookup(s, gs, k - 1, h);
      TouchLookup(TouchAll(s, gs, k - 1), gs[k - 1], h);
    }
  }

  /** Accessing guilds gives every one of them a record and removes none. */
  lemma {:induction false} TouchAllKeys(s: Store, gs: seq<GuildId>, k: nat)
    requires k <= |gs|
    ensures forall h :: h in TouchAll(s, gs, k).records <==> h in s.records || h in gs[..k]
  {
    if k != 0 {
      TouchAllKeys(s, gs, k - 1);
      TouchShape(TouchAll(s, gs, k - 1), gs[k - 1]);
      assert gs[..k] == gs[..k - 1] + [gs[k - 1]];
    }
  }

  /** Accessing guilds keeps the store valid. */
  lemma {:induction false} TouchAllValid(s: Store, gs: seq<GuildId>, k: nat)
    requires k <= |gs| && Valid(s)
    ensures Valid(TouchAll(s, gs, k))
  {
    if k != 0 {
      TouchAllValid(s, gs, k - 1);
      TouchValid(TouchAll(s, gs, k - 1), gs[k - 1]);
    }
  }
}
