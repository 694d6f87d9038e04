/**
 * The two exported entry points of index.js: `generateAddressesFromDataUri`
 * and `checkOrAddFileFromDataUri`, with the reconciliation of the two
 * addresses' first-seen-receiving dates.
 *
 * The key and address derivation (SHA-256, secp256k1, WIF, P2SH-P2WPKH and
 * bech32 encodings) is the parameter `derive`, and the block-explorer query
 * `_getAddressInfo` is the parameter `ledger`.
 */
module Existence {
  import opened Wrappers
  import DataUri

  /** The `data` of the result both entry points return on a rejected URI. */
  const InvalidDataUriMessage: string := "Invalid Data URI."

  /**
   * A first-seen-receiving date as the explorer reports it: the text that is
   * returned to the caller, and the instant `moment` parses it to, which is
   * what the comparison uses.
   */
  datatype Seen = Seen(text: string, instant: int)

  /** What `_getAddressInfo` returns when the query succeeds. */
  datatype AddressInfo = AddressInfo(balance: int, firstSeenReceiving: Option<Seen>)

  /** The key pair in wallet-import format and its two address encodings. */
  datatype Identity = Identity(privateKey: string, p2shAddress: string, bech32Address: string)

  /** The outside calls a call of `checkOrAddFileFromDataUri` makes, in order. */
  datatype Event = Derive(dataUri: string) | Lookup(address: string)

  /** The result of `generateAddressesFromDataUri`. */
  datatype Generated = Generated(identity: Identity) | GenerateError(message: string)

  /** Why `checkOrAddFileFromDataUri` returned `error: true`. */
  datatype Failure =
    | InvalidDataUri(message: string)
      /** The lookup of this address failed, so destructuring its `undefined` result threw. */
    | LookupThrew(address: string)

  /** The result of `checkOrAddFileFromDataUri`. */
  datatype CheckResult =
    | Checked(fileExists: bool, identity: Identity, dateCreated: Option<Seen>)
    | CheckError(failure: Failure)

  /** The derivation from the URI's text to its identity. */
  type Deriver = string -> Identity

  /** The explorer query; `None` when it failed and `_getAddressInfo` returned `undefined`. */
  type Ledger = string -> Option<AddressInfo>

  /** `generateAddressesFromDataUri`: the identity of an accepted URI, the fixed error otherwise. */
  function GenerateAddresses(dataUri: string, derive: Deriver): (r: Generated)
    ensures r.GenerateError? <==> !DataUri.IsDataUri(dataUri)
    ensures r.GenerateError? ==> r.message == InvalidDataUriMessage
    ensures r.Generated? ==> r.identity == derive(dataUri)
  {
    if !DataUri.IsDataUri(dataUri) then GenerateError(InvalidDataUriMessage)
    else Generated(derive(dataUri))
  }

  /**
   * The verdict drawn from the two first-seen dates: the file exists when
   * either date is present, and its creation date is the earliest present
   * date, the bech32 one when both name the same instant.
   */
  predicate IsVerdict(p2sh: Option<Seen>, bech32: Option<Seen>, fileExists: bool, dateCreated: Option<Seen>) {
    && fileExists == (p2sh.Some? || bech32.Some?)
    && dateCreated.Some? == fileExists
    && (dateCreated.Some? ==> dateCreated == p2sh || dateCreated == bech32)
    && (dateCreated.Some? && p2sh.Some? ==> dateCreated.value.instant <= p2sh.value.instant)
    && (dateCreated.Some? && bech32.Some? ==> dateCreated.value.instant <= bech32.value.instant)
    && (p2sh.Some? && bech32.Some? && p2sh.value.instant == bech32.value.instant ==> dateCreated == bech32)
  }

  /** The merge in `checkOrAddFileFromDataUri`, step by step as the source assigns `exists` and `dateCreated`. */
  method MergeFirstSeen(p2sh: Option<Seen>, bech32: Option<Seen>) returns (fileExists: bool, dateCreated: Option<Seen>)
    ensures IsVerdict(p2sh, bech32, fileExists, dateCreated)
  {
    fileExists := false;
    dateCreated := None;
    if p2sh.Some? || bech32.Some? {
      fileExists := true;
      if p2sh.Some? && bech32.Some? {
        dateCreated := if p2sh.value.instant < bech32.value.instant then p2sh else bech32;
      } else {
        dateCreated := if p2sh.Some? then p2sh else bech32;
      }
    }
  }

  /** The verdict is determined by the two dates: no two verdicts fit the same pair. */
  lemma VerdictUnique(p2sh: Option<Seen>, bech32: Option<Seen>, e1: bool, d1: Option<Seen>, e2: bool, d2: Option<Seen>)
    requires IsVerdict(p2sh, bech32, e1, d1) && IsVerdict(p2sh, bech32, e2, d2)
    ensures e1 == e2 && d1 == d2
  {
  }

  /** Swapping the two addresses changes at most which text of one instant is reported. */
  lemma VerdictInstantSymmetric(p2sh: Option<Seen>, bech32: Option<Seen>, e1: bool, d1: Option<Seen>, e2: bool, d2: Option<Seen>)
    requires IsVerdict(p2sh, bech32, e1, d1) && IsVerdict(bech32, p2sh, e2, d2)
    ensures e1 == e2 && d1.Some? == d2.Some?
    ensures d1.Some? ==> d1.value.instant == d2.value.instant
  {
  }

  /**
   * `checkOrAddFileFromDataUri`: rejects an invalid URI before any outside
   * call; otherwise derives the identity, looks up the P2SH address and then
   * the bech32 address, and merges their first-seen dates. A failed lookup
   * ends the call with an error, and a failed P2SH lookup means the bech32
   * address is never looked up.
   */
  method CheckOrAddFile(dataUri: string, derive: Deriver, ledger: Ledger) returns (result: CheckResult, trace: seq<Event>)
    ensures !DataUri.IsDataUri(dataUri) ==> result == CheckError(InvalidDataUri(InvalidDataUriMessage)) && trace == []
    ensures DataUri.IsDataUri(dataUri) ==>
      var id := derive(dataUri);
      var p2sh, bech32 := ledger(id.p2shAddress), ledger(id.bech32Address);
      && (p2sh.None? ==>
            result == CheckError(LookupThrew(id.p2shAddress))
            && trace == [Derive(dataUri), Lookup(id.p2shAddress)])
      && (p2sh.Some? ==> trace == [Derive(dataUri), Lookup(id.p2shAddress), Lookup(id.bech32Address)])
      && (p2sh.Some? && bech32.None? ==> result == CheckError(LookupThrew(id.bech32Address)))
      && (p2sh.Some? && bech32.Some? ==>
            && result.Checked?
            && result.identity == id
            && IsVerdict(p2sh.value.firstSeenReceiving, bech32.value.firstSeenReceiving, result.fileExists, result.dateCreated))
  {
    if !DataUri.IsDataUri(dataUri) {
      return CheckError(InvalidDataUri(InvalidDataUriMessage)), [];
    }
    var generated := GenerateAddresses(dataUri, derive);
    var id := generated.identity;

    var p2shInfo := ledger(id.p2shAddress);
    if p2shInfo.None? {
      return CheckError(LookupThrew(id.p2shAddress)), [Derive(dataUri), Lookup(id.p2shAddress)];
    }
    var bech32Info := ledger(id.bech32Address);
    trace := [Derive(dataUri), Lookup(id.p2shAddress), Lookup(id.bech32Address)];
    if bech32Info.None? {
      return CheckError(LookupThrew(id.bech32Address)), trace;
    }

    var fileExists, dateCreated := MergeFirstSeen(p2shInfo.value.firstSeenReceiving, bech32Info.value.firstSeenReceiving);
    result := Checked(fileExists, id, dateCreated);
  }
}
