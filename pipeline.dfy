/**
 * The record pipeline of the `App` component: the state that `loadStepData`,
 * `uploadSteps`, `decryptSteps` and the upload form's change handler update.
 *
 * Every awaited call into the wallet, the ledger contract or the encryption
 * service is replaced by its settled `Outcome`, given as a parameter. Ghost
 * fields record what the pipeline asked of those services.
 */
module Pipeline {
  import opened Records
  import opened Seqs
  import opened Text
  import opened Ranking
  import opened StepsInput
  import opened Messages

  datatype Status = Pending | Success | Error

  /** The transaction notification, `transactionStatus`. */
  datatype Toast = Toast(visible: bool, status: Status, message: string)

  const Hidden := Toast(false, Pending, "")
  const ConnectFirst := Toast(true, Error, "Please connect wallet first")
  const LoadFailed := Toast(true, Error, "Failed to load data")
  const Encrypting := Toast(true, Pending, "Encrypting step data with Zama FHE...")
  const Uploading := Toast(true, Pending, "Uploading encrypted steps...")
  const Uploaded := Toast(true, Success, "Steps uploaded successfully!")
  const AlreadyVerifiedToast := Toast(true, Success, "Steps already verified")
  const Verifying := Toast(true, Pending, "Verifying steps...")
  const VerifiedToast := Toast(true, Success, "Steps verified successfully!")
  const VerifyFailed := Toast(true, Error, "Verification failed")
  const SignerMissing := "Failed to get contract with signer"
  /** The name of the upload form's step input. */
  const StepsField := "steps"

  /** `if (address)`: an account is known, and its address is not the empty string. */
  predicate AddressKnown(address: Option<string>)
  {
    address.Some? && address.value != []
  }

  /**
   * What one `loadStepData` sees of the ledger: whether the read-only contract
   * was obtained (`Ok(false)`: the factory returned nothing), and the outcome
   * of `getAllBusinessIds` paired with the outcome of each record fetch.
   */
  datatype Ledger = Ledger(contract: Outcome<bool>, records: Outcome<seq<Fetch>>)

  /** The state `loadStepData` writes. */
  datatype ViewState = ViewState(stepRecords: seq<StepRecord>, userHistory: seq<StepRecord>, toast: Toast)

  predicate LoadSucceeds(connected: bool, ledger: Ledger)
  {
    connected && ledger.contract == Ok(true) && ledger.records.Ok?
  }

  /**
   * The state after `loadStepData` (frontend/web/src/App.tsx:88-135). A failure
   * to reach the contract or to list the identifiers only raises the "failed to
   * load" notification; otherwise the leaderboard is replaced, and the personal
   * history too when an address is known.
   */
  function Reload(v: ViewState, connected: bool, address: Option<string>, ledger: Ledger): (w: ViewState)
    ensures IsLeaderboard(v.stepRecords) ==> IsLeaderboard(w.stepRecords)
    ensures !connected || ledger.contract == Ok(false) ==> w == v
    ensures connected && (ledger.contract.Throws? || (ledger.contract == Ok(true) && ledger.records.Throws?)) ==>
      w == v.(toast := LoadFailed)
    ensures LoadSucceeds(connected, ledger) ==>
      var loaded := Loaded(ledger.records.value);
      && w.toast == v.toast
      && w.stepRecords == Leaderboard(loaded)
      && multiset(Unranked(w.stepRecords)) == multiset(Verified(loaded))
      && (AddressKnown(address) ==> w.userHistory == History(loaded, address.value))
    ensures !AddressKnown(address) ==> w.userHistory == v.userHistory
  {
    if !connected then v
    else match ledger.contract
      case Throws(_) => v.(toast := LoadFailed)
      case Ok(available) =>
        if !available then v
        else match ledger.records
          case Throws(_) => v.(toast := LoadFailed)
          case Ok(fetches) =>
            var loaded := Loaded(fetches);
            LoadedMembers(fetches);
            LeaderboardSpec(loaded);
            ViewState(
              Leaderboard(loaded),
              if AddressKnown(address) then History(loaded, address.value) else v.userHistory,
              v.toast)
  }

  /** Reloading the same ledger snapshot twice gives the state one reload gives. */
  lemma ReloadIdempotent(v: ViewState, connected: bool, address: Option<string>, ledger: Ledger)
    ensures Reload(Reload(v, connected, address, ledger), connected, address, ledger)
      == Reload(v, connected, address, ledger)
  {
  }

  /**
   * After a successful reload, records of equal value stand on the leaderboard
   * in the order their identifiers were listed.
   */
  lemma ReloadKeepsTieOrder(v: ViewState, connected: bool, address: Option<string>, ledger: Ledger, value: nat)
    requires LoadSucceeds(connected, ledger)
    ensures Filter(HasValue(value), Unranked(Reload(v, connected, address, ledger).stepRecords))
      == Filter(HasValue(value), Verified(Loaded(ledger.records.value)))
  {
    LoadedMembers(ledger.records.value);
    LeaderboardStable(Loaded(ledger.records.value), value);
  }

  /** The encrypted payload and input proof that `encrypt` returns. */
  datatype Ciphertext = Ciphertext(data: string, proof: string)

  /** The arguments of one `createBusinessData` call. */
  datatype CreateCall = CreateCall(
    id: string,
    name: string,
    payload: Ciphertext,
    publicValue1: nat,
    publicValue2: nat,
    description: string)

  /**
   * The settled outcomes of the calls `uploadSteps` awaits: the signer-bound
   * contract, the contract's address lookup, the encryption,
   * `createBusinessData`, and `tx.wait()`.
   */
  datatype UploadRun = UploadRun(
    signer: Outcome<bool>,
    contractAddress: Outcome<()>,
    encryption: Outcome<Ciphertext>,
    submission: Outcome<()>,
    confirmation: Outcome<()>)

  /** The error `uploadSteps` catches, if any step fails. */
  function UploadFailure(run: UploadRun): Option<JsError>
  {
    match run.signer
    case Throws(e) => Some(e)
    case Ok(available) =>
      if !available then Some(JsError(Some(SignerMissing)))
      else match run.contractAddress
        case Throws(e) => Some(e)
        case Ok(_) =>
          match run.encryption
          case Throws(e) => Some(e)
          case Ok(_) =>
            match run.submission
            case Throws(e) => Some(e)
            case Ok(_) =>
              match run.confirmation
              case Throws(e) => Some(e)
              case Ok(_) => None
  }

  /** The opaque handle of an encrypted value. */
  type Handle = string

  /**
   * The settled outcomes of the calls `decryptSteps` awaits: the read-only
   * contract, the record, the signer-bound contract, the encrypted-value handle,
   * the signer-bound contract's address lookup, and the verified decryption
   * (which submits the proof through its callback).
   */
  datatype VerifyRun = VerifyRun(
    reader: Outcome<bool>,
    record: Outcome<RawRecord>,
    signer: Outcome<bool>,
    handle: Outcome<Handle>,
    writerAddress: Outcome<()>,
    decryption: Outcome<map<Handle, nat>>)

  /** What `decryptSteps` resolves to: `null`, a number, or `NaN` when the handle has no clear value. */
  datatype Revealed = Null | Num(value: nat) | NaN

  /** The path one `decryptSteps` call takes once the wallet is connected. */
  datatype VerifyPath =
    | Quiet                                         // a contract factory returned nothing
    | Stored(value: nat)                            // the record was already verified
    | Decrypted(handle: Handle, clear: map<Handle, nat>)
    | Failed(error: JsError)

  function PathOf(run: VerifyRun): (p: VerifyPath)
    ensures p.Stored? <==> run.reader == Ok(true) && run.record.Ok? && run.record.value.isVerified
    ensures p.Stored? ==> p.value == NumberOrZero(run.record.value.decryptedValue)
    ensures p.Decrypted? <==> ReachesDecryption(run) && run.decryption.Ok?
    ensures p.Stored? || p.Quiet? ==> !ReachesDecryption(run)
  {
    match run.reader
    case Throws(e) => Failed(e)
    case Ok(available) =>
      if !available then Quiet
      else match run.record
        case Throws(e) => Failed(e)
        case Ok(raw) =>
          if raw.isVerified then Stored(NumberOrZero(raw.decryptedValue))
          else match run.signer
            case Throws(e) => Failed(e)
            case Ok(writable) =>
              if !writable then Quiet
              else match run.handle
                case Throws(e) => Failed(e)
                case Ok(h) =>
                  match run.writerAddress
                  case Throws(e) => Failed(e)
                  case Ok(_) =>
                    match run.decryption
                    case Throws(e) => Failed(e)
                    case Ok(clear) => Decrypted(h, clear)
  }

  /**
   * `decryptSteps` asks the decryption service exactly when the record is
   * unverified and both the handle and the signer-bound contract's address were obtained.
   */
  predicate ReachesDecryption(run: VerifyRun)
  {
    && run.reader == Ok(true)
    && run.record.Ok? && !run.record.value.isVerified
    && run.signer == Ok(true)
    && run.handle.Ok?
    && run.writerAddress.Ok?
  }

  class RecordPipeline {
    var stepRecords: seq<StepRecord>
    var userHistory: seq<StepRecord>
    var toast: Toast
    var draft: Draft

    /** The plaintexts handed to the encryption service, in order. */
    ghost var encrypted: seq<nat>
    /** The `createBusinessData` calls made, in order. */
    ghost var created: seq<CreateCall>
    /** The record identifiers sent through verified decryption, in order. */
    ghost var decryptRequests: seq<string>

    ghost predicate Valid()
      reads this
    {
      IsLeaderboard(stepRecords) && AllDigits(draft.steps)
    }

    ghost function View(): ViewState
      reads this
    {
      ViewState(stepRecords, userHistory, toast)
    }

    constructor ()
      ensures Valid()
      ensures stepRecords == [] && userHistory == [] && toast == Hidden && draft == Draft("", "")
      ensures encrypted == [] && created == [] && decryptRequests == []
    {
      stepRecords, userHistory, toast, draft := [], [], Hidden, Draft("", "");
      encrypted, created, decryptRequests := [], [], [];
    }

    /** `loadStepData` (frontend/web/src/App.tsx:88-135). */
    method LoadStepData(connected: bool, address: Option<string>, ledger: Ledger)
      requires Valid()
      modifies this`stepRecords, this`userHistory, this`toast
      ensures Valid()
      ensures View() == Reload(old(View()), connected, address, ledger)
    {
      if !connected {
        return;
      }
      match ledger.contract {
        case Throws(_) =>
          toast := LoadFailed;
        case Ok(available) =>
          if available {
            match ledger.records {
              case Throws(_) =>
                toast := LoadFailed;
              case Ok(fetches) =>
                var records := CollectRecords(fetches);
                LoadedMembers(fetches);
                LeaderboardSpec(records);
                stepRecords := Leaderboard(records);
                if AddressKnown(address) {
                  userHistory := History(records, address.value);
                }
            }
          }
      }
    }

    /** `UploadModal.handleChange` (frontend/web/src/App.tsx:538-546): the step field keeps only digits. */
    method HandleChange(field: string, value: string)
      requires Valid()
      modifies this`draft
      ensures Valid()
      ensures field == StepsField ==> draft == old(draft).(steps := SanitizeSteps(value))
      ensures field != StepsField ==> draft == old(draft).(name := value)
    {
      if field == StepsField {
        var digits := SanitizeSteps(value);
        draft := draft.(steps := digits);
      } else {
        draft := draft.(name := value);
      }
    }

    /** `uploadSteps` (frontend/web/src/App.tsx:137-186); `now` is `Date.now()`. */
    method UploadSteps(connected: bool, address: Option<string>, now: nat, run: UploadRun, ledger: Ledger)
      requires Valid()
      modifies this
      ensures Valid()
      ensures decryptRequests == old(decryptRequests)
      ensures !connected || !AddressKnown(address) ==>
        && toast == ConnectFirst && draft == old(draft)
        && stepRecords == old(stepRecords) && userHistory == old(userHistory)
        && encrypted == old(encrypted) && created == old(created)
      ensures connected && AddressKnown(address) ==>
        var value := ParseSteps(old(draft.steps));
        && encrypted == old(encrypted) + (if run.signer == Ok(true) && run.contractAddress.Ok? then [value] else [])
        && created == old(created) +
             (if run.signer == Ok(true) && run.contractAddress.Ok? && run.encryption.Ok? then
                [CreateCall(BusinessId(now, address.value), old(draft.name), run.encryption.value,
                            value, 0, Description(value))]
              else [])
        && (UploadFailure(run).Some? ==>
              && toast == Toast(true, Error, UploadErrorMessage(UploadFailure(run).value))
              && draft == old(draft)
              && stepRecords == old(stepRecords) && userHistory == old(userHistory))
        && (UploadFailure(run).None? ==>
              && View() == Reload(old(View()).(toast := Uploaded), true, address, ledger)
              && draft == Draft("", ""))
    {
      if !connected || !AddressKnown(address) {
        toast := ConnectFirst;
        return;
      }
      toast := Encrypting;
      var failure: Option<JsError> := None;
      match run.signer {
        case Throws(e) =>
          failure := Some(e);
        case Ok(available) =>
          if !available {
            failure := Some(JsError(Some(SignerMissing)));
          } else {
            var stepValue := ParseSteps(draft.steps);
            var businessId := BusinessId(now, address.value);
            match run.contractAddress {
              case Throws(e) =>
                failure := Some(e);
              case Ok(_) =>
                encrypted := encrypted + [stepValue];
                match run.encryption {
                  case Throws(e) =>
                    failure := Some(e);
                  case Ok(payload) =>
                    created := created + [CreateCall(businessId, draft.name, payload, stepValue, 0, Description(stepValue))];
                    match run.submission {
                      case Throws(e) =>
                        failure := Some(e);
                      case Ok(_) =>
                        toast := Uploading;
                        match run.confirmation {
                          case Throws(e) =>
                            failure := Some(e);
                          case Ok(_) =>
                            toast := Uploaded;
                            LoadStepData(true, address, ledger);
                            draft := Draft("", "");
                        }
                    }
                }
            }
          }
      }
      if failure.Some? {
        toast := Toast(true, Error, UploadErrorMessage(failure.value));
      }
    }

    /** `decryptSteps` (frontend/web/src/App.tsx:188-244). */
    method DecryptSteps(connected: bool, address: Option<string>, businessId: string, run: VerifyRun, ledger: Ledger)
      returns (r: Revealed)
      requires Valid()
      modifies this`stepRecords, this`userHistory, this`toast, this`decryptRequests
      ensures Valid()
      ensures !connected || !AddressKnown(address) ==>
        r == Null && toast == ConnectFirst && decryptRequests == old(decryptRequests)
        && stepRecords == old(stepRecords) && userHistory == old(userHistory)
      ensures connected && AddressKnown(address) ==>
        && decryptRequests == old(decryptRequests) + (if ReachesDecryption(run) then [businessId] else [])
        && match PathOf(run)
           case Quiet =>
             r == Null && View() == old(View())
           case Stored(value) =>
             r == Num(value) && View() == old(View()).(toast := AlreadyVerifiedToast)
           case Decrypted(h, clear) =>
             && r == (if h in clear then Num(clear[h]) else NaN)
             && View() == Reload(old(View()).(toast := Verifying), true, address, ledger).(toast := VerifiedToast)
           case Failed(e) =>
             && r == Null
             && (IsAlreadyVerified(e) ==>
                   View() == Reload(old(View()).(toast := AlreadyVerifiedToast), true, address, ledger))
             && (!IsAlreadyVerified(e) ==> View() == old(View()).(toast := VerifyFailed))
    {
      if !connected || !AddressKnown(address) {
        toast := ConnectFirst;
        return Null;
      }
      r := Null;
      var failure: Option<JsError> := None;
      match run.reader {
        case Throws(e) =>
          failure := Some(e);
        case Ok(readable) =>
          if readable {
            match run.record {
              case Throws(e) =>
                failure := Some(e);
              case Ok(raw) =>
                if raw.isVerified {
                  toast := AlreadyVerifiedToast;
                  return Num(NumberOrZero(raw.decryptedValue));
                }
                match run.signer {
                  case Throws(e) =>
                    failure := Some(e);
                  case Ok(writable) =>
                    if writable {
                      match run.handle {
                        case Throws(e) =>
                          failure := Some(e);
                        case Ok(h) =>
                          match run.writerAddress {
                            case Throws(e) =>
                              failure := Some(e);
                            case Ok(_) =>
                              decryptRequests := decryptRequests + [businessId];
                              match run.decryption {
                                case Throws(e) =>
                                  failure := Some(e);
                                case Ok(clear) =>
                                  toast := Verifying;
                                  var value := if h in clear then Num(clear[h]) else NaN;
                                  LoadStepData(true, address, ledger);
                                  toast := VerifiedToast;
                                  r := value;
                              }
                          }
                      }
                    }
                }
            }
          }
      }
      if failure.Some? {
        if IsAlreadyVerified(failure.value) {
          toast := AlreadyVerifiedToast;
          LoadStepData(true, address, ledger);
        } else {
          toast := VerifyFailed;
        }
        r := Null;
      }
    }
  }

  /**
   * Once the ledger reports the record verified, a second `decryptSteps` on it
   * makes no decryption request: over two calls at most one request is made.
   */
  method VerifyTwice(p: RecordPipeline, address: Option<string>, businessId: string,
                     first: VerifyRun, second: VerifyRun, ledger: Ledger)
    returns (r1: Revealed, r2: Revealed)
    requires p.Valid() && AddressKnown(address)
    requires second.reader == Ok(true) && second.record.Ok? && second.record.value.isVerified
    modifies p
    ensures p.Valid()
    ensures r2 == Num(NumberOrZero(second.record.value.decryptedValue))
    ensures |p.decryptRequests| <= |old(p.decryptRequests)| + 1
  {
    r1 := p.DecryptSteps(true, address, businessId, first, ledger);
    r2 := p.DecryptSteps(true, address, businessId, second, ledger);
  }
}
