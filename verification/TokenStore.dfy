/** The in-memory token store: its meaning as functions on a map, and the class that updates one. */
module TokenStore {
  import opened Basics
  import opened Tokens

  datatype TokenRecord = TokenRecord(
    token: string,
    moniker: string,
    sessionId: string,
    issuedAt: int,
    expiresAt: int,
    isSysop: bool,
    instanceId: string,
    websocketId: string,
    claims: Claims,
    loginid: Option<string>
  )

  type Records = map<string, TokenRecord>

  // ------------------------------------------------------- specification

  function Stored(s: Records, rec: TokenRecord): Records {
    s[rec.token := rec]
  }

  function Removed(s: Records, token: string): Records {
    s - {token}
  }

  /** The record, unless its time is up. */
  function Live(s: Records, token: string, now: int): Option<TokenRecord> {
    if token in s && now < s[token].expiresAt then Some(s[token]) else None
  }

  /** The store after a get: an expired record found there is dropped. */
  function AfterGet(s: Records, token: string, now: int): Records {
    if token in s && s[token].expiresAt <= now then s - {token} else s
  }

  /** The store after gc_expired. */
  function Collected(s: Records, now: int): Records {
    map t | t in s && now < s[t].expiresAt :: s[t]
  }

  // --------------------------------------------------------------- class

  class InMemoryTokenStore {
    var records: Records

    constructor ()
      ensures records == map[]
    {
      records := map[];
    }

    method Put(rec: TokenRecord)
      modifies this
      ensures records == Stored(old(records), rec)
    {
      records := records[rec.token := rec];
    }

    method Get(token: string, now: int) returns (r: Option<TokenRecord>)
      modifies this
      ensures r == Live(old(records), token, now)
      ensures records == AfterGet(old(records), token, now)
    {
      if token !in records {
        return None;
      }
      var rec := records[token];
      if rec.expiresAt <= now {
        records := records - {token};
        return None;
      }
      return Some(rec);
    }

    method Delete(token: string) returns (present: bool)
      modifies this
      ensures present == (token in old(records))
      ensures records == Removed(old(records), token)
    {
      present := token in records;
      records := records - {token};
    }

    /** Collect first, then pop one by one, as the source does. */
    method GcExpired(now: int) returns (count: nat)
      modifies this
      ensures records == Collected(old(records), now)
      ensures count == |old(records)| - |records|
    {
      ghost var before := records;
      var expired := set t | t in records && records[t].expiresAt <= now;
      count := |expired|;
      var todo := expired;
      while todo != {}
        invariant todo <= expired
        invariant forall t :: t in records <==> t in before && (t in expired ==> t in todo)
        invariant forall t :: t in records ==> records[t] == before[t]
        invariant |records| == |before| - |expired| + |todo|
        decreases |todo|
      {
        var t :| t in todo;
        assert records.Keys - {t} == (records - {t}).Keys;
        records := records - {t};
        todo := todo - {t};
      }
    }
  }

  // -------------------------------------------------------------- lemmas

  /** Collecting at several times is collecting at the last of them. */
  lemma CollectTwice(s: Records, n: int, m: int)
    requires n <= m
    ensures Collected(Collected(s, n), m) == Collected(s, m)
  {
  }

  /** What a get sees, and what it leaves behind, does not depend on an earlier collection. */
  lemma GetAfterCollect(s: Records, token: string, n: int, m: int)
    requires n <= m
    ensures Live(Collected(s, n), token, m) == Live(s, token, m)
    ensures Collected(AfterGet(s, token, n), m) == Collected(s, m)
  {
  }

  /** Collection commutes with storing a live record and with deleting one. */
  lemma CollectCommutes(s: Records, rec: TokenRecord, token: string, now: int)
    ensures now < rec.expiresAt ==> Collected(Stored(s, rec), now) == Stored(Collected(s, now), rec)
    ensures Collected(Removed(s, token), now) == Removed(Collected(s, now), token)
  {
  }
}
