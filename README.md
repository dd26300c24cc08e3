# Private Step Challenge: record pipeline model

This project models, in Dafny, the record pipeline of the Private Step Challenge
web client (`frontend/web/src/App.tsx`). Participants upload an encrypted step
count. The ledger later reveals a verified value for each record. The client
ranks the verified records into a leaderboard.

The model covers:

- **Load and rank** (`loadStepData`). The loop walks the record identifiers and
  keeps one record per successful fetch; a fetch that throws skips its
  identifier. Missing or non-numeric fields read as 0. The verified records are
  stably sorted by `decryptedValue`, largest first, and ranked 1..k. The
  caller's history is every loaded record whose creator matches the caller's
  address, ignoring case.
- **The view projections.** The search over names, ignoring case, with the
  verified-only flag. The statistics panel: counts, total, rounded average and
  top performer.
- **The upload form.** The digit sanitiser of the step field, `parseInt(..) || 0`,
  the submit button's condition, the record identifier and the description.
- **Upload and verify** (`uploadSteps`, `decryptSteps`). These are the methods
  of the class `Pipeline.RecordPipeline`. Every awaited wallet, contract or
  encryption call becomes a settled `Outcome` parameter. Ghost fields record
  what was asked of those services: the plaintexts encrypted, the
  `createBusinessData` calls, and the identifiers sent for decryption.

Modules: `Seqs` (order-preserving filter), `Text` (ASCII lower-casing,
`includes`, decimal numerals), `Records`, `Ranking`, `Views`, `StepsInput`,
`Messages` and `Pipeline`.

Some consequences of the code that the model makes explicit:

- `stepRecords` holds only the ranked, verified list. The panel labels
  `totalRecords` "Total Participants" (frontend/web/src/App.tsx:443-444), but it
  equals `verifiedRecords`. The verified-only flag has no effect on the
  leaderboard either (`Views.LeaderboardStats`,
  `Views.VerifiedFlagIdleOnLeaderboard`). With records of 500 (verified), 0
  (unverified) and 1200 (verified), the panel reports 2 records
  (`Views.ThreeRecordScenario`).
- When `decryptSteps` finds the record already verified, it returns the stored
  value without reloading the records.
- When a contract factory returns nothing, `loadStepData` and `decryptSteps`
  return silently, with no notification.

## Model

| member | source | states |
|---|---|---|
| `Seqs.Filter` | frontend/web/src/App.tsx:119 | The result holds only elements satisfying the predicate. An element is in the result iff it is in the input and satisfies the predicate. |
| `Seqs.FilterConcat` | frontend/web/src/App.tsx:119 | Filtering distributes over concatenation, so kept elements keep their relative order. |
| `Seqs.FilterIsSubsequence` | frontend/web/src/App.tsx:126 | The filtered sequence is a subsequence of the input. |
| `Seqs.FilterCount` | frontend/web/src/App.tsx:541 | Every occurrence of a selected element is kept, and no occurrence of another. |
| `Seqs.FilterIdempotent` | frontend/web/src/App.tsx:541 | Filtering twice with one predicate equals filtering once. |
| `Text.Contains` | frontend/web/src/App.tsx:261 | `includes` is true iff the needle occurs at some position of the string (the empty needle occurs everywhere). |
| `Text.DecimalRoundTrip` | frontend/web/src/App.tsx:163 | Reading back the decimal numeral of n gives n. |
| `Text.CanonicalRoundTrip` | frontend/web/src/App.tsx:151 | A numeral without leading zeros is the numeral of its own value. |
| `Text.LeadingZerosIgnored` | frontend/web/src/App.tsx:151 | Leading zeros do not change the value of a digit string. |
| `Records.FromRaw` | frontend/web/src/App.tsx:102-112 | The kept record carries the fetched id, name, timestamp, creator and flag, and no rank. `publicValue1`, `publicValue2` and `decryptedValue` each carry the fetched number, or 0 when it is missing. `steps` equals `publicValue1`. |
| `Records.CollectRecords` | frontend/web/src/App.tsx:99-116 | The loop yields exactly the records of the successful fetches, in fetch order. Their number is the number of successful fetches. |
| `Records.LoadedMembers` | frontend/web/src/App.tsx:99-116 | A record is loaded iff some identifier's fetch succeeded with it. Loaded records are unranked. The count equals the successful fetches, so one failure among five ids leaves four. |
| `Records.LoadedConcat` | frontend/web/src/App.tsx:99-116 | Loading two runs of identifiers one after the other is loading each run in turn (fetch order is kept). |
| `Ranking.Insert` | frontend/web/src/App.tsx:120 | Insertion adds exactly one occurrence of the element (multiset). |
| `Ranking.InsertSorted` | frontend/web/src/App.tsx:120 | Inserting into a non-increasing sequence keeps it non-increasing. |
| `Ranking.SortDesc` | frontend/web/src/App.tsx:120 | The sort's result is a permutation of its input, non-increasing in `decryptedValue`. |
| `Ranking.SortDescStable` | frontend/web/src/App.tsx:120 | The sort is stable: for every value, the records with that value keep their order. |
| `Ranking.SortDescHead` | frontend/web/src/App.tsx:272 | The first record after sorting has the largest value, and no earlier input record has that value. |
| `Ranking.SortDescOfSorted` | frontend/web/src/App.tsx:272 | Sorting a non-increasing sequence leaves it unchanged. |
| `Ranking.SortDescSum` | frontend/web/src/App.tsx:268 | Sorting does not change the sum of the values. |
| `Ranking.LeaderboardSpec` | frontend/web/src/App.tsx:118-121 | The ranked list holds verified records only and is non-increasing. Record i has rank i + 1. Its length is the number of verified records. With ranks cleared it is a permutation of the verified records. |
| `Ranking.LeaderboardStable` | frontend/web/src/App.tsx:118-121 | Once ranks are cleared, records of equal value stand on the leaderboard in the order they were loaded. |
| `Ranking.History` | frontend/web/src/App.tsx:125-128 | A record is in the history iff it was loaded (verified or not) and its lower-cased creator equals the lower-cased address. Each such record occurs as often as it was loaded. The history keeps fetch order. |
| `Views.FilteredRecords` | frontend/web/src/App.tsx:260-263 | A record is shown iff its lower-cased name contains the lower-cased term and (`!filterVerified` or it is verified). Each shown record occurs as often as in the list. The view keeps list order. |
| `Views.EmptySearchShowsAll` | frontend/web/src/App.tsx:260-263 | An empty term with the flag off shows every record, in order. |
| `Views.SearchIgnoresTermCase` | frontend/web/src/App.tsx:261 | Lower-casing the search term does not change the view. |
| `Views.VerifiedFlagIdleOnLeaderboard` | frontend/web/src/App.tsx:262 | On a leaderboard the verified-only flag does not change the view. |
| `Views.RoundedMean` | frontend/web/src/App.tsx:270 | `Math.round(total / count)`: `-count < 2*(avg*count - total) <= count`, that is, the nearest integer with halves rounded up. |
| `Views.RoundedMeanUnique` | frontend/web/src/App.tsx:270 | That bound determines the average uniquely. |
| `Views.ComputeStats` | frontend/web/src/App.tsx:265-273 | `totalRecords` is the list length. `verifiedRecords` is the number of verified records. `totalSteps` is their sum. The average is 0 with no verified record, and otherwise within half a record of total/count. The top performer is absent iff nothing is verified, and otherwise it is one of the verified records. |
| `Views.TopPerformerIsFirstMax` | frontend/web/src/App.tsx:272 | The top performer is absent iff no record is verified. Otherwise it is the first verified record of maximal value. |
| `Views.LeaderboardStats` | frontend/web/src/App.tsx:123 | On the ranked list, `totalRecords == verifiedRecords` == the number of verified loaded records. The total is their sum. The top performer is rank 1. |
| `Views.ThreeRecordScenario` | frontend/web/src/App.tsx:118-123 | Records 500 (verified), 0 (unverified), 1200 (verified) give [1200 rank 1, 500 rank 2]. The stats are (2, 2, 1700, 850). |
| `StepsInput.SanitizeSteps` | frontend/web/src/App.tsx:541 | The sanitised field holds only digits. It is a subsequence of the typed text and keeps every digit of it. |
| `StepsInput.SanitizeIdempotent` | frontend/web/src/App.tsx:541 | Sanitising twice equals sanitising once. |
| `StepsInput.ParseSteps` | frontend/web/src/App.tsx:151 | The empty field gives 0. A canonical numeral parses to the value whose numeral it is. |
| `StepsInput.ParseDecimal` | frontend/web/src/App.tsx:151 | The numeral of n parses to n. |
| `StepsInput.ParseIgnoresLeadingZeros` | frontend/web/src/App.tsx:151 | Leading zeros do not change the parsed count. |
| `StepsInput.ParseDoubleOhSeven` | frontend/web/src/App.tsx:151 | "007" parses to 7. |
| `StepsInput.SubmitEnabledIffDigitTyped` | frontend/web/src/App.tsx:597 | `SubmitEnabled` models the button's condition. With a name and nothing in flight, submit is enabled iff the typed step text held a digit. |
| `StepsInput.BusinessId` | frontend/web/src/App.tsx:152 | The id starts with "steps-". For addresses of 8 or more characters it ends with "-" and characters 2 to 7 of the address. |
| `StepsInput.Description` | frontend/web/src/App.tsx:163 | The description is "Daily steps: " followed by a canonical numeral that reads back as the uploaded count. |
| `StepsInput.BusinessIdCollision` | frontend/web/src/App.tsx:152 | Two ids are equal iff the timestamps are equal and the address slices are equal. |
| `Messages.UploadErrorMessage` | frontend/web/src/App.tsx:178-180 | The message is "Transaction rejected" iff the error text contains "user rejected transaction". Otherwise it is "Upload failed: " followed by the error text, or by "Unknown error" when the text is missing or empty. |
| `Pipeline.Reload` | frontend/web/src/App.tsx:88-135 | Reloading keeps the leaderboard invariant. Without a wallet, or when the contract factory returns nothing, nothing changes. When the contract lookup or the id listing throws, only the "Failed to load data" notification is raised. A successful load keeps the notification and sets the leaderboard to the ranked verified loaded records, a permutation of them. The history is replaced only when an address is known. |
| `Pipeline.ReloadKeepsTieOrder` | frontend/web/src/App.tsx:118-123 | After a successful load, records of equal value stand on the leaderboard in the order their identifiers were listed. |
| `Pipeline.ReloadIdempotent` | frontend/web/src/App.tsx:88-135 | Reloading twice from the same ledger snapshot gives the state one reload gives. |
| `Pipeline.PathOf` | frontend/web/src/App.tsx:195-243 | The stored-value path is taken iff the record is read and already verified, and it returns the stored value or 0. The decrypted path is taken iff decryption was requested (`ReachesDecryption`) and succeeded. The stored-value and silent paths make no request. |
| `Pipeline.RecordPipeline.constructor` | frontend/web/src/App.tsx:25-38 | Empty lists, a hidden notification, an empty form. |
| `Pipeline.RecordPipeline.LoadStepData` | frontend/web/src/App.tsx:88-135 | The new records, history and notification equal `Reload` of the old ones. The leaderboard invariant is kept. |
| `Pipeline.RecordPipeline.HandleChange` | frontend/web/src/App.tsx:538-546 | The step field becomes the sanitised text. Any other field stores the text as typed. |
| `Pipeline.RecordPipeline.UploadSteps` | frontend/web/src/App.tsx:137-186 | Without a wallet, only the "connect" notification is set. Otherwise, once the contract address is obtained, the parsed value is encrypted and submitted with the derived id, `publicValue2 = 0` and the description. Any failure shows the classified message and leaves records, history and form unchanged. Success reloads and clears the form. |
| `Pipeline.RecordPipeline.DecryptSteps` | frontend/web/src/App.tsx:188-244 | An already verified record returns its stored value with no decryption request and no reload. Decryption is requested only for an unverified record once both its handle and the signer-bound contract's address were obtained. The clear value of the handle is returned, or NaN. An "already verified" error (`Messages.IsAlreadyVerified`: the message contains "Data already verified") yields null and a reload. Other errors yield null and "Verification failed". |
| `Pipeline.VerifyTwice` | frontend/web/src/App.tsx:199-205 | Once the ledger reports the record verified, a second verify returns the stored value, and two calls make at most one decryption request. |

## Left out

- Rendering, CSS and the modal markup. The busy flags (`loading`, `isRefreshing`, `uploading`), modal visibility and `selectedRecord` are left out too: they are presentation state.
- The FHEVM initialisation effect and the initial-load effect (frontend/web/src/App.tsx:46-86). These are framework wiring. `loadStepData` itself is modelled.
- `checkAvailability` (frontend/web/src/App.tsx:246-258). It only forwards one contract call to a notification.
- Overlapping asynchronous operations. Each method runs start to finish, with the outcomes of its awaited calls given in advance.
- The automatic hiding of notifications after 2 or 3 seconds (`setTimeout`). The model keeps the last notification set.
- Wallet, contract factories, `encrypt`, `verifyDecryption` and the ledger's own behaviour. They are replaced by `Outcome` parameters, one per awaited call, including the two `getAddress` lookups.
- Whether the decryption service's callback actually submitted a verification transaction is not modelled. Only the requests to the service are counted.
- `Date.now()`. It is a parameter of `UploadSteps`.
- Locale date and number formatting.
- `Number()` on BigInt values, and JavaScript floating point. Values are unbounded naturals. `Math.round(total / count)` is exact integer rounding, so rounding error on totals beyond 2^53 is not modelled.
- `Text.Lower`: does not model Unicode case mapping. Only ASCII letters are lower-cased.
- `StepsInput.ParseSteps`: does not model `parseInt` on text with spaces, signs or other characters. The step field only ever holds the sanitiser's digits (an invariant of `RecordPipeline`). Numerals beyond 2^53 are not rounded.
- A non-numeric `timestamp` (`Number(x)` giving NaN) is not modelled. A missing `creator`, on which `toLowerCase` would throw, is not modelled either.
