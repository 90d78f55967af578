/**
 * The record-flattening step of `downloadAndParseFile`: the parsed ED807
 * document is projected onto an ordered list of
 * `{bic, name, corrAccount}` records, one per account of every entry.
 */
module Flatten {
  import opened Wrappers
  import opened ParsedTree

  /** One output record; a `None` field is a property that read as `undefined`. */
  datatype Record = Record(bic: Option<string>, name: Option<string>, corrAccount: Option<string>)

  /** The TypeError thrown by a property read on `undefined`, labelled by where it happens. */
  datatype Error =
    | MissingRoot               // `parsedResult.ED807.BICDirectoryEntry` with no `ED807`
    | EntryWithoutAttributes    // `entry.$.BIC` with no `$`
    | MissingParticipantName    // `nameP[0].$` with no first `ParticipantInfo` or no `$` on it
    | AccountWithoutAttributes  // `account.$.Account` with no `$`

  // ---------------------------------------------------------------------
  // Specification: what the flattening reads and produces
  // ---------------------------------------------------------------------

  /** How many accounts an entry's `Accounts` field holds once normalised. */
  function AccountCount(f: Field): nat {
    match f
    case Absent => 0
    case Single(_) => 1
    case Many(s) => |s|
  }

  /** The sum, in entry order, of the normalised account counts. */
  function TotalAccounts(es: seq<Entry>): nat {
    if es == [] then 0 else AccountCount(es[0].accounts) + TotalAccounts(es[1..])
  }

  /** `nameP[0].$` is readable: `ParticipantInfo` is a non-empty array whose first element has attributes. */
  predicate NameReadable(info: Field) {
    info.Many? && |info.elements| > 0 && info.elements[0].attrs.Some?
  }

  /** The `NameP` attribute of the first `ParticipantInfo`. */
  function NameOf(info: Field): Option<string>
    requires NameReadable(info)
  {
    Attribute(info.elements[0].attrs.value, "NameP")
  }

  /** Every account in the list has a `$` object. */
  predicate AccountsAddressable(accounts: seq<Element>) {
    forall j :: 0 <= j < |accounts| ==> accounts[j].attrs.Some?
  }

  /** An entry that the flattening processes without throwing. */
  predicate EntryWellFormed(e: Entry) {
    && e.attrs.Some?
    && (AccountCount(e.accounts) == 0
        || (NameReadable(e.participantInfo) && AccountsAddressable(AccountList(e.accounts))))
  }

  /** The record an entry yields for one of its accounts. */
  function ExpectedRecord(e: Entry, account: Element): Record
    requires e.attrs.Some? && NameReadable(e.participantInfo) && account.attrs.Some?
  {
    Record(Attribute(e.attrs.value, "BIC"), NameOf(e.participantInfo), Attribute(account.attrs.value, "Account"))
  }

  /** The error an entry that is not well formed throws first. */
  function EntryError(e: Entry): Error {
    if e.attrs.None? then EntryWithoutAttributes
    else if !NameReadable(e.participantInfo) then MissingParticipantName
    else AccountWithoutAttributes
  }

  /** Entry `i` is the first entry that is not well formed. */
  predicate FirstIllFormed(es: seq<Entry>, i: int)
    requires 0 <= i < |es|
  {
    !EntryWellFormed(es[i]) && forall k :: 0 <= k < i ==> EntryWellFormed(es[k])
  }

  /** A document the flattening processes without throwing. */
  predicate DocumentWellFormed(doc: Document) {
    && doc.ed807.Some?
    && (doc.ed807.value.bicDirectoryEntry.EntryArray? ==>
          forall i :: 0 <= i < |doc.ed807.value.bicDirectoryEntry.entries| ==>
            EntryWellFormed(doc.ed807.value.bicDirectoryEntry.entries[i]))
  }

  /** How many records a well-formed document yields. */
  function ExpectedCount(doc: Document): nat
    requires doc.ed807.Some?
  {
    match doc.ed807.value.bicDirectoryEntry
    case NotAnArray => 0
    case EntryArray(es) => TotalAccounts(es)
  }

  // ---------------------------------------------------------------------
  // The flattening, as app.js evaluates it
  // ---------------------------------------------------------------------

  /** Normalising `Accounts`: a bare value becomes a one-element list, an array is kept. */
  function AccountList(f: Field): (r: seq<Element>)
    ensures |r| == AccountCount(f)
    ensures f.Absent? ==> r == []
    ensures f.Single? ==> r == [f.element]
    ensures f.Many? ==> r == f.elements
  {
    match f
    case Absent => []
    case Single(a) => [a]
    case Many(s) => s
  }

  /** `nameP[0].$.NameP`, which throws unless the name is readable. */
  function ParticipantName(info: Field): (r: Result<Option<string>, Error>)
    ensures r.Success? <==> NameReadable(info)
    ensures r.Success? ==> r.value == NameOf(info)
    ensures r.Failure? ==> r.error == MissingParticipantName
  {
    match info
    case Many(s) =>
      if |s| == 0 then Failure(MissingParticipantName)
      else (
        match s[0].attrs
        case None => Failure(MissingParticipantName)
        case Some(a) => Success(Attribute(a, "NameP")))
    case _ => Failure(MissingParticipantName)
  }

  /**
   * `accounts.map(account => ({bic, name: nameP[0].$.NameP, corrAccount: account.$.Account}))`:
   * the name is read again for every account, before the account's own attribute.
   */
  function AccountRecords(bic: Option<string>, info: Field, accounts: seq<Element>): (r: Result<seq<Record>, Error>)
    ensures r.Success? <==> (accounts == [] || (NameReadable(info) && AccountsAddressable(accounts)))
    ensures r.Failure? ==> r.error == (if NameReadable(info) then AccountWithoutAttributes else MissingParticipantName)
    ensures r.Success? ==> |r.value| == |accounts|
    ensures r.Success? ==> forall j :: 0 <= j < |accounts| ==>
              && NameReadable(info) && accounts[j].attrs.Some?
              && r.value[j] == Record(bic, NameOf(info), Attribute(accounts[j].attrs.value, "Account"))
  {
    if accounts == [] then Success([])
    else
      match ParticipantName(info)
      case Failure(e) => Failure(e)
      case Success(name) =>
        match accounts[0].attrs
        case None => Failure(AccountWithoutAttributes)
        case Some(a) =>
          match AccountRecords(bic, info, accounts[1..])
          case Failure(e) => Failure(e)
          case Success(rest) => Success([Record(bic, name, Attribute(a, "Account"))] + rest)
  }

  /** The `flatMap` callback: the records of one `BICDirectoryEntry`. */
  function EntryRecords(e: Entry): (r: Result<seq<Record>, Error>)
    ensures r.Success? <==> EntryWellFormed(e)
    ensures r.Failure? ==> r.error == EntryError(e)
    ensures r.Success? ==> |r.value| == AccountCount(e.accounts)
    ensures r.Success? ==> forall j :: 0 <= j < |r.value| ==>
              && NameReadable(e.participantInfo) && AccountList(e.accounts)[j].attrs.Some?
              && r.value[j] == ExpectedRecord(e, AccountList(e.accounts)[j])
  {
    match e.attrs
    case None => Failure(EntryWithoutAttributes)
    case Some(attrs) =>
      var bic := Attribute(attrs, "BIC");
      match e.accounts
      case Absent => Success([])
      case _ => AccountRecords(bic, e.participantInfo, AccountList(e.accounts))
  }

  /** `bicEntries.flatMap(...)`: entries in order, stopping at the first that throws. */
  function EntriesRecords(es: seq<Entry>): (r: Result<seq<Record>, Error>)
    ensures r.Success? <==> forall i :: 0 <= i < |es| ==> EntryWellFormed(es[i])
    ensures r.Success? ==> |r.value| == TotalAccounts(es)
    ensures r.Failure? ==> exists i :: 0 <= i < |es| && FirstIllFormed(es, i) && r.error == EntryError(es[i])
  {
    if es == [] then Success([])
    else
      match EntryRecords(es[0])
      case Failure(e) =>
        assert FirstIllFormed(es, 0);
        Failure(e)
      case Success(head) =>
        var tail := EntriesRecords(es[1..]);
        match tail
        case Failure(e) =>
          assert forall i :: 0 <= i < |es| - 1 ==> es[1..][i] == es[i + 1];
          var i :| 0 <= i < |es| - 1 && FirstIllFormed(es[1..], i) && e == EntryError(es[1..][i]);
          assert FirstIllFormed(es, i + 1);
          Failure(e)
        case Success(rest) => Success(head + rest)
  }

  /** Lines 66-86: `parsedResult.ED807.BICDirectoryEntry`, then the flattening or `[]`. */
  function FlattenDocument(doc: Document): (r: Result<seq<Record>, Error>)
    ensures doc.ed807.None? ==> r == Failure(MissingRoot)
    ensures r.Success? <==> DocumentWellFormed(doc)
    ensures r.Success? ==> |r.value| == ExpectedCount(doc)
    ensures doc.ed807.Some? && doc.ed807.value.bicDirectoryEntry.EntryArray? ==>
              r == EntriesRecords(doc.ed807.value.bicDirectoryEntry.entries)
  {
    match doc.ed807
    case None => Failure(MissingRoot)
    case Some(root) =>
      match root.bicDirectoryEntry
      case NotAnArray => Success([])
      case EntryArray(es) => EntriesRecords(es)
  }

  /**
   * What `downloadAndParseFile` resolves to once the document is parsed:
   * the records, or `undefined` (`None`) when the flattening threw and the
   * `catch` swallowed the error.
   */
  function DownloadAndParseResult(doc: Document): (r: Option<seq<Record>>)
    ensures r.None? <==> !DocumentWellFormed(doc)
    ensures r.Some? ==> |r.value| == ExpectedCount(doc)
    ensures r.Some? ==> FlattenDocument(doc) == Success(r.value)
  {
    match FlattenDocument(doc)
    case Success(records) => Some(records)
    case Failure(_) => None
  }
}
