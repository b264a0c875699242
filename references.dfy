/** Reference resolution of the invoice listing: the distinct partner, journal
    and currency ids a page refers to, and the id-keyed maps built from one
    batched read per kind. */
module References {
  import opened Wrappers
  import opened Odoo

  function PartnerIds(rs: seq<InvoiceReport>): set<int> {
    set j | 0 <= j < |rs| && rs[j].partnerId.Some? :: rs[j].partnerId.value
  }

  function JournalIds(rs: seq<InvoiceReport>): set<int> {
    set j | 0 <= j < |rs| && rs[j].journalId.Some? :: rs[j].journalId.value
  }

  function CurrencyIds(rs: seq<InvoiceReport>): set<int> {
    set j | 0 <= j < |rs| && rs[j].currencyId.Some? :: rs[j].currencyId.value
  }

  /** One scan of the page filling the three id sets: every present reference
      is collected once, absent references contribute nothing. */
  method CollectReferenceIds(rs: seq<InvoiceReport>) returns (partnerIds: set<int>, journalIds: set<int>, currencyIds: set<int>)
    ensures partnerIds == PartnerIds(rs)
    ensures journalIds == JournalIds(rs)
    ensures currencyIds == CurrencyIds(rs)
  {
    partnerIds, journalIds, currencyIds := {}, {}, {};
    var i := 0;
    while i < |rs|
      invariant 0 <= i <= |rs|
      invariant partnerIds == PartnerIds(rs[..i])
      invariant journalIds == JournalIds(rs[..i])
      invariant currencyIds == CurrencyIds(rs[..i])
    {
      var r := rs[i];
      PrefixIds(rs, i);
      if r.partnerId.Some? {
        partnerIds := partnerIds + {r.partnerId.value};
      }
      if r.journalId.Some? {
        journalIds := journalIds + {r.journalId.value};
      }
      if r.currencyId.Some? {
        currencyIds := currencyIds + {r.currencyId.value};
      }
      i := i + 1;
    }
    assert rs[..|rs|] == rs;
  }

  /** How each id set grows by one row. */
  lemma PrefixIds(rs: seq<InvoiceReport>, i: int)
    requires 0 <= i < |rs|
    ensures PartnerIds(rs[..i + 1]) == PartnerIds(rs[..i]) + (if rs[i].partnerId.Some? then {rs[i].partnerId.value} else {})
    ensures JournalIds(rs[..i + 1]) == JournalIds(rs[..i]) + (if rs[i].journalId.Some? then {rs[i].journalId.value} else {})
    ensures CurrencyIds(rs[..i + 1]) == CurrencyIds(rs[..i]) + (if rs[i].currencyId.Some? then {rs[i].currencyId.value} else {})
  {
    var a, b := rs[..i], rs[..i + 1];
    assert forall j :: 0 <= j < i ==> b[j] == a[j];
    assert b[i] == rs[i];
  }

  /** The map a Go loop `m[id(r)] = r` leaves after scanning `rs`: a later row
      with the same id overwrites an earlier one. */
  function Indexed<R>(rs: seq<R>, id: R -> int): map<int, R> {
    if rs == [] then map[] else Indexed(rs[..|rs| - 1], id)[id(rs[|rs| - 1]) := rs[|rs| - 1]]
  }

  lemma {:induction false} IndexedKeys<R>(rs: seq<R>, id: R -> int)
    ensures Indexed(rs, id).Keys == set j | 0 <= j < |rs| :: id(rs[j])
  {
    if rs != [] {
      var n := |rs| - 1;
      var init := rs[..n];
      IndexedKeys(init, id);
      assert forall j :: 0 <= j < n ==> init[j] == rs[j];
      assert (set j | 0 <= j < |rs| :: id(rs[j])) == (set j | 0 <= j < n :: id(init[j])) + {id(rs[n])};
    }
  }

  lemma {:induction false} IndexedFiled<R>(rs: seq<R>, id: R -> int)
    ensures forall k :: k in Indexed(rs, id) ==> id(Indexed(rs, id)[k]) == k
  {
    if rs != [] {
      IndexedFiled(rs[..|rs| - 1], id);
    }
  }

  lemma {:induction false} IndexedLast<R>(rs: seq<R>, id: R -> int, j: int)
    requires 0 <= j < |rs| && forall j' :: j < j' < |rs| ==> id(rs[j']) != id(rs[j])
    ensures id(rs[j]) in Indexed(rs, id) && Indexed(rs, id)[id(rs[j])] == rs[j]
  {
    var n := |rs| - 1;
    if j < n {
      var init := rs[..n];
      assert init[j] == rs[j];
      assert forall j' :: j < j' < |init| ==> init[j'] == rs[j'];
      IndexedLast(init, id, j);
    }
  }

  /** The keys are the ids of the rows, each entry is filed under its own id,
      and the entry of an id is the last row carrying it. */
  lemma IndexedMeaning<R>(rs: seq<R>, id: R -> int)
    ensures Indexed(rs, id).Keys == set j | 0 <= j < |rs| :: id(rs[j])
    ensures forall k :: k in Indexed(rs, id) ==> id(Indexed(rs, id)[k]) == k
    ensures forall j :: 0 <= j < |rs| && (forall j' :: j < j' < |rs| ==> id(rs[j']) != id(rs[j]))
                        ==> Indexed(rs, id)[id(rs[j])] == rs[j]
  {
    IndexedKeys(rs, id);
    IndexedFiled(rs, id);
    forall j | 0 <= j < |rs| && (forall j' :: j < j' < |rs| ==> id(rs[j']) != id(rs[j]))
      ensures Indexed(rs, id)[id(rs[j])] == rs[j]
    {
      IndexedLast(rs, id, j);
    }
  }

  /** The loop that fills one lookup map from the rows of a batched read. */
  method IndexById<R>(rs: seq<R>, id: R -> int) returns (m: map<int, R>)
    ensures m == Indexed(rs, id)
  {
    m := map[];
    var i := 0;
    while i < |rs|
      invariant 0 <= i <= |rs|
      invariant m == Indexed(rs[..i], id)
    {
      assert rs[..i + 1][..i] == rs[..i];
      m := m[id(rs[i]) := rs[i]];
      i := i + 1;
    }
    assert rs[..|rs|] == rs;
  }

  /** The lookup map of one kind: empty when its batched read failed. */
  function Lookup<R>(read: Result<seq<R>>, id: R -> int): map<int, R> {
    if read.Success? then Indexed(read.value, id) else map[]
  }

  function PartnerKey(p: ResPartner): int { p.id }
  function JournalKey(j: AccountJournal): int { j.id }
  function CurrencyKey(c: ResCurrency): int { c.id }

  /** The lookup maps of a page: a kind is read only when the page refers to it. */
  function PartnerLookup(src: InvoiceSource, rs: seq<InvoiceReport>): map<int, ResPartner> {
    if PartnerIds(rs) == {} then map[] else Lookup(src.readPartners(PartnerIds(rs)), PartnerKey)
  }

  function JournalLookup(src: InvoiceSource, rs: seq<InvoiceReport>): map<int, AccountJournal> {
    if JournalIds(rs) == {} then map[] else Lookup(src.readJournals(JournalIds(rs)), JournalKey)
  }

  function CurrencyLookup(src: InvoiceSource, rs: seq<InvoiceReport>): map<int, ResCurrency> {
    if CurrencyIds(rs) == {} then map[] else Lookup(src.readCurrencies(CurrencyIds(rs)), CurrencyKey)
  }

  /** A successful read files each returned row under its own id; a failed
      read leaves the map empty instead of failing. */
  lemma LookupMeaning<R>(read: Result<seq<R>>, id: R -> int)
    ensures read.Failure? ==> Lookup(read, id) == map[]
    ensures read.Success? ==> Lookup(read, id).Keys == set j | 0 <= j < |read.value| :: id(read.value[j])
    ensures forall k :: k in Lookup(read, id) ==> id(Lookup(read, id)[k]) == k
  {
    if read.Success? {
      IndexedMeaning(read.value, id);
    }
  }
}
