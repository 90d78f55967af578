/** Properties of the flattening that relate several evaluations. */
module FlattenProperties {
  import opened Wrappers
  import opened ParsedTree
  import opened Flatten

  /** Running the flattening over one list after another. */
  function Sequenced(first: Result<seq<Record>, Error>, second: Result<seq<Record>, Error>): Result<seq<Record>, Error> {
    match first
    case Failure(e) => Failure(e)
    case Success(r1) =>
      match second
      case Failure(e) => Failure(e)
      case Success(r2) => Success(r1 + r2)
  }

  /** The account total is additive over concatenation of entry lists. */
  lemma {:induction false} TotalAccountsAppend(a: seq<Entry>, b: seq<Entry>)
    ensures TotalAccounts(a + b) == TotalAccounts(a) + TotalAccounts(b)
  {
    if a == [] {
      assert a + b == b;
    } else {
      assert (a + b)[1..] == a[1..] + b;
      TotalAccountsAppend(a[1..], b);
    }
  }

  /**
   * Flattening a concatenation of entry lists yields the records of the
   * first list followed by those of the second; an error in the first list
   * is thrown before the second is looked at.
   */
  lemma {:induction false} EntriesRecordsAppend(a: seq<Entry>, b: seq<Entry>)
    ensures EntriesRecords(a + b) == Sequenced(EntriesRecords(a), EntriesRecords(b))
  {
    if a == [] {
      assert a + b == b;
      if EntriesRecords(b).Success? {
        assert [] + EntriesRecords(b).value == EntriesRecords(b).value;
      }
    } else {
      assert (a + b)[0] == a[0];
      assert (a + b)[1..] == a[1..] + b;
      EntriesRecordsAppend(a[1..], b);
      match EntryRecords(a[0])
      case Failure(_) =>
      case Success(head) =>
        match EntriesRecords(a[1..])
        case Failure(_) =>
        case Success(r1) =>
          match EntriesRecords(b)
          case Failure(_) =>
          case Success(r2) =>
            assert head + (r1 + r2) == (head + r1) + r2;
    }
  }

  /**
   * Order and content: the records of entry `i` start right after those of
   * the entries before it, and its `j`-th record carries the entry's BIC, its
   * first participant name and the `j`-th account in account order.
   */
  lemma {:induction false} RecordAt(es: seq<Entry>, rs: seq<Record>, i: int, j: int)
    requires EntriesRecords(es) == Success(rs)
    requires 0 <= i < |es| && 0 <= j < AccountCount(es[i].accounts)
    ensures EntryWellFormed(es[i]) && NameReadable(es[i].participantInfo)
    ensures AccountList(es[i].accounts)[j].attrs.Some?
    ensures TotalAccounts(es[..i]) + j < |rs|
    ensures rs[TotalAccounts(es[..i]) + j] == ExpectedRecord(es[i], AccountList(es[i].accounts)[j])
  {
    var head := EntryRecords(es[0]).value;
    var rest := EntriesRecords(es[1..]).value;
    assert rs == head + rest;
    if i == 0 {
      assert es[..0] == [];
    } else {
      assert es[1..][i - 1] == es[i];
      RecordAt(es[1..], rest, i - 1, j);
      assert es[..i][0] == es[0];
      assert es[..i][1..] == es[1..][..i - 1];
      assert TotalAccounts(es[..i]) == |head| + TotalAccounts(es[1..][..i - 1]);
    }
  }

  /**
   * Every record comes from one account of one entry: record `k` lies in the
   * block of the entry `i` whose preceding entries hold at most `k` accounts,
   * and it is the record of that entry's account at offset `k` within the block.
   */
  lemma {:induction false} RecordOrigin(es: seq<Entry>, rs: seq<Record>, k: int)
    requires EntriesRecords(es) == Success(rs)
    requires 0 <= k < |rs|
    ensures exists i :: 0 <= i < |es| && InBlock(es, rs, i, k)
  {
    BlockExists(es, rs, k);
    var i :| 0 <= i < |es| && TotalAccounts(es[..i]) <= k < TotalAccounts(es[..i]) + AccountCount(es[i].accounts);
    var j := k - TotalAccounts(es[..i]);
    RecordAt(es, rs, i, j);
    assert EntryWellFormed(es[i]) && NameReadable(es[i].participantInfo);
    assert AccountList(es[i].accounts)[j].attrs.Some?;
    assert rs[k] == ExpectedRecord(es[i], AccountList(es[i].accounts)[j]);
    assert InBlock(es, rs, i, k);
  }

  /** Record `k` lies in entry `i`'s block and is built from the matching account. */
  predicate InBlock(es: seq<Entry>, rs: seq<Record>, i: int, k: int)
    requires 0 <= i < |es| && 0 <= k < |rs|
  {
    && TotalAccounts(es[..i]) <= k < TotalAccounts(es[..i]) + AccountCount(es[i].accounts)
    && EntryWellFormed(es[i]) && NameReadable(es[i].participantInfo)
    && AccountList(es[i].accounts)[k - TotalAccounts(es[..i])].attrs.Some?
    && rs[k] == ExpectedRecord(es[i], AccountList(es[i].accounts)[k - TotalAccounts(es[..i])])
  }

  /** Some entry's block of records contains index `k`. */
  lemma {:induction false} BlockExists(es: seq<Entry>, rs: seq<Record>, k: int)
    requires EntriesRecords(es) == Success(rs)
    requires 0 <= k < |rs|
    ensures exists i :: 0 <= i < |es| && TotalAccounts(es[..i]) <= k < TotalAccounts(es[..i]) + AccountCount(es[i].accounts)
  {
    var head := EntryRecords(es[0]).value;
    var rest := EntriesRecords(es[1..]).value;
    assert es[..0] == [];
    if k >= |head| {
      BlockExists(es[1..], rest, k - |head|);
      var i :| 0 <= i < |es| - 1 && TotalAccounts(es[1..][..i]) <= k - |head| < TotalAccounts(es[1..][..i]) + AccountCount(es[1..][i].accounts);
      assert es[..i + 1][1..] == es[1..][..i];
      assert es[1..][i] == es[i + 1];
      assert TotalAccounts(es[..i + 1]) == |head| + TotalAccounts(es[1..][..i]);
    }
  }

  /** Nothing is deduplicated: a repeated entry list yields its records twice. */
  lemma NoDeduplication(es: seq<Entry>, rs: seq<Record>)
    requires EntriesRecords(es) == Success(rs)
    ensures EntriesRecords(es + es) == Success(rs + rs)
  {
    EntriesRecordsAppend(es, es);
  }

  /** An entry whose `Accounts` is absent or falsy yields no records and does not throw, whatever its `ParticipantInfo`. */
  lemma AbsentAccountsSkipped(e: Entry)
    requires e.attrs.Some? && e.accounts.Absent?
    ensures EntryRecords(e) == Success([])
  {
  }

  /** An entry with no accounts at all (absent, or an empty array) contributes nothing, whatever its `ParticipantInfo`. */
  lemma ZeroAccountsNeverFail(e: Entry)
    requires e.attrs.Some? && AccountCount(e.accounts) == 0
    ensures EntryRecords(e) == Success([])
  {
  }

  /** A bare `Accounts` value is handled exactly as a one-element array and yields one record. */
  lemma SingleAccountNormalised(e: Entry, account: Element)
    ensures EntryRecords(e.(accounts := Single(account))) == EntryRecords(e.(accounts := Many([account])))
    ensures EntryRecords(e.(accounts := Single(account))).Success? ==>
              |EntryRecords(e.(accounts := Single(account))).value| == 1
  {
  }

  /** Removing an entry that has attributes and no accounts leaves the flattening unchanged. */
  lemma EmptyEntryContributesNothing(es: seq<Entry>, i: int)
    requires 0 <= i < |es| && es[i].attrs.Some? && AccountCount(es[i].accounts) == 0
    ensures EntriesRecords(es[..i] + es[i + 1..]) == EntriesRecords(es)
  {
    assert es == es[..i] + ([es[i]] + es[i + 1..]);
    EntriesRecordsAppend(es[..i], [es[i]] + es[i + 1..]);
    EntriesRecordsAppend([es[i]], es[i + 1..]);
    EntriesRecordsAppend(es[..i], es[i + 1..]);
    ZeroAccountsNeverFail(es[i]);
    assert [es[i]][1..] == [];
    match EntriesRecords(es[..i])
    case Failure(_) =>
    case Success(r1) =>
      match EntriesRecords(es[i + 1..])
      case Failure(_) =>
      case Success(r2) =>
        assert [] + r2 == r2;
  }

  /**
   * An entry with at least one account but no readable `ParticipantInfo`
   * makes the whole document fail; the same entry with no accounts does not.
   */
  lemma MissingNameFailsOnlyWithAccounts(doc: Document, i: int)
    requires doc.ed807.Some? && doc.ed807.value.bicDirectoryEntry.EntryArray?
    requires 0 <= i < |doc.ed807.value.bicDirectoryEntry.entries|
    requires !NameReadable(doc.ed807.value.bicDirectoryEntry.entries[i].participantInfo)
    ensures AccountCount(doc.ed807.value.bicDirectoryEntry.entries[i].accounts) > 0 ==>
              FlattenDocument(doc).Failure? && DownloadAndParseResult(doc).None?
    ensures doc.ed807.value.bicDirectoryEntry.entries[i].attrs.Some? &&
            AccountCount(doc.ed807.value.bicDirectoryEntry.entries[i].accounts) == 0 ==>
              EntryRecords(doc.ed807.value.bicDirectoryEntry.entries[i]) == Success([])
  {
  }

  /** A root whose `BICDirectoryEntry` is not an array yields the empty list. */
  lemma NotAnArrayYieldsEmpty(doc: Document)
    requires doc.ed807.Some? && doc.ed807.value.bicDirectoryEntry.NotAnArray?
    ensures FlattenDocument(doc) == Success([])
    ensures DownloadAndParseResult(doc) == Some([])
  {
  }

  /** A document without `ED807` throws and resolves to `undefined`, not to an empty list. */
  lemma MissingRootFails(doc: Document)
    requires doc.ed807.None?
    ensures FlattenDocument(doc) == Failure(MissingRoot)
    ensures DownloadAndParseResult(doc) == None
  {
  }
}
