# Proof of existence: data-URI gate and first-seen reconciliation

This project models `index.js` of a small proof-of-existence service. A file,
given as a data URI, is turned into a Bitcoin key pair whose private key is
the SHA-256 hash of the URI's text. The service then asks a block explorer
whether either of the key's two addresses (P2SH-wrapped segwit and native
bech32) has ever received a payment. If one has, the file "exists", and the
earlier first-received date is its creation date.

The model has three parts:

- `DataUri` (data_uri.dfy) is the recognizer `_isDataUri`. Its regular
  expression is written twice. The first is a grammar: a parse tree `Uri`,
  its conditions `WellFormed` and its spelling `Render`. The second is a
  hand-built recognizer `Parse` over the characters. `Parse` is proved sound
  (every result is well formed and spells the input) and complete with
  uniqueness (`Parse(Render(u)) == Some(u)`). So `IsDataUri` accepts exactly
  the grammar's language.
- `Chars` (chars.dfy) holds the pattern's character classes as read under
  the `/i` flag, with JavaScript's `\s` code points spelled out.
- `Existence` (existence.dfy) holds the two exported entry points. The key
  and address derivation is a function parameter `derive`. The explorer query
  is a function parameter `ledger`. `checkOrAddFileFromDataUri` returns the
  outside calls it makes as an event trace. This makes "nothing is derived or
  looked up for a rejected URI" and "the bech32 address is not looked up when
  the P2SH lookup failed" statable.

In three places the code behaves in ways a reader might not expect; the model follows the code:

- A failed explorer query does not read as "not found". `_getAddressInfo`
  returns `undefined`. Destructuring it throws, and the catch turns that into
  `{error: true}` (`Failure.LookupThrew`).
- The two lookups are sequential, not concurrent: the P2SH address first,
  then the bech32 address.
- A media-type parameter value may hold only letters and `-`. So the common
  `charset=utf-8` is rejected (`CharsetUtf8Rejected`), and so is any
  parameter without a media type before it.

## Model

| member | source | states |
|---|---|---|
| `Chars.ClassesAreCaseBlind` | index.js:61 | under `/i`, the letter, name, whitespace and data classes each hold of a character exactly when they hold of its case variants |
| `Chars.NonLetterHasNoVariant` | index.js:61 | against this pattern's atoms (all ASCII or caseless), `/i` pairs only ASCII letters: a character that is not an ASCII letter matches only itself |
| `DataUri.Span` | index.js:61 | the greedy runs `\s*`, `[a-z]+` and `[a-z\-]+`: the longest prefix in the class, with the rest starting outside it, and the two re-join to the input |
| `DataUri.SpanExact` | index.js:61 | a run in the class followed by a character outside it is split exactly there (the greedy run never backtracks) |
| `DataUri.ParseParam` | index.js:61 | the optional `;name=value`: what is consumed is a well-formed parameter and, with the rest, spells the input |
| `DataUri.ParseMedia` | index.js:61 | the optional `type/subtype` with its parameter: what is consumed is a well-formed media type and, with the rest, spells the input |
| `DataUri.ParseFlag` | index.js:61 | the optional `;base64`, in any letter case: what is consumed plus the rest spells the input |
| `DataUri.IsDataUri` | index.js:60-63 | `_isDataUri` is whether the recognizer finds a parse; by its contract, every string it accepts is spelled by a well-formed tree (the converse is `AcceptsExactlyTheGrammar`) |
| `DataUri.Parse` | index.js:60-63 | soundness: every parse returned is a well-formed tree (whitespace, scheme, media type, flag, comma, data class) whose spelling is exactly the input |
| `DataUri.ParseRender` | index.js:61 | completeness with uniqueness: the recognizer recovers every well-formed tree from its own spelling |
| `DataUri.AcceptsExactlyTheGrammar` | index.js:60-63 | `_isDataUri(s)` holds if and only if some well-formed tree spells `s` |
| `DataUri.CaseInsensitive` | index.js:61 | `/i`: changing the case of letters never changes acceptance, in either direction |
| `DataUri.EmptyRejected` | index.js:60-62 | the empty string (the entry points' default argument) is rejected |
| `DataUri.SchemeRequired` | index.js:61 | every accepted string is whitespace, then `data:` in some case, then more |
| `DataUri.ParamNeedsMediaType` | index.js:61 | `data:;name=...` is rejected whatever follows: a parameter needs a media type before it |
| `DataUri.DigitInParamValueRejected` | index.js:61 | after `type/subtype;name=`, a value whose first character outside letters and `-` is a digit makes the URI rejected, whatever follows |
| `DataUri.WellFormedAccepted` | index.js:60-63 | the spelling of any well-formed tree is accepted |
| `DataUri.Base64TextAccepted` | index.js:61 | `data:text/plain;base64,SGVsbG8=` is accepted |
| `DataUri.UpperCaseAccepted` | index.js:61 | the same URI in capitals after leading blanks is accepted |
| `DataUri.PlainWordRejected` | index.js:61 | `not-a-data-uri` is rejected |
| `DataUri.CharsetUtf8Rejected` | index.js:61 | `data:text/plain;charset=utf-8,Hello` is rejected |
| `Existence.GenerateAddresses` | index.js:38-53 | the error with message `Invalid Data URI.` exactly when the URI is rejected, and otherwise the derived key and both addresses of that URI |
| `Existence.MergeFirstSeen` | index.js:8-28 | `exists` iff either first-seen date is present, and `dateCreated` is present iff `exists`; the date is one of the inputs, no later than either present one, and the bech32 one on a tie |
| `Existence.VerdictUnique` | index.js:18-27 | the merge's contract fixes its result: two verdicts for the same pair of dates are equal |
| `Existence.VerdictInstantSymmetric` | index.js:21-24 | swapping the addresses keeps `exists` and the instant of `dateCreated`; only which text is reported on a tie can change |
| `Existence.CheckOrAddFile` | index.js:5-36 | a rejected URI gives `Invalid Data URI.` with no derivation and no lookup; otherwise it derives, looks up P2SH and then bech32; a failed lookup gives an error (a failed P2SH lookup skips the bech32 one); with both lookups it returns the derived key and both addresses together with the merged verdict |

## Left out

- The key and address derivation (index.js:42-51: SHA-256, secp256k1, WIF, P2SH-P2WPKH, bech32) is foreign library code. It is the parameter `derive`, a total, deterministic function of the URI text.
- GenerateAddresses: does not model the library exception for a hash outside the valid scalar range (index.js:54-57), because that failure lies inside the library. For the same reason `CheckOrAddFile` does not model going on with the error object that `generateAddressesFromDataUri` would then return.
- The HTTP request and the walk through the JSON envelope (index.js:65-71) are network I/O. They are the parameter `ledger`, where `None` stands for every failure that makes `_getAddressInfo` return `undefined`.
- Date parsing with `moment` (index.js:22-23) is not modelled. Each date arrives with its parsed instant (`Seen.instant`). Unparseable dates, whose `NaN` comparison would pick the bech32 date, are not modelled.
- A response without a `first_seen_receiving` field is not modelled. In JavaScript its `undefined` is `!== null`, so it would count as present.
- `async`/`await` and `console.log` are left out. The awaits are sequential, and the trace records their order.
- A non-string argument is not modelled. There `dataUri.match` would throw and the catch would return `{error: true}`. The model takes strings.
- The `balance` fields are read but never used. They are carried in `AddressInfo` and play no part.
- Fold: folds only ASCII letters, whereas `/i` without the `u` flag also pairs non-ASCII letters such as `é` and `É`. For this pattern the two agree, because every atom is ASCII or caseless and case folding never maps a character at or above 128 to an ASCII one.
- JavaScript strings are UTF-16 code units, and a Dafny `char` is a Unicode scalar value. Every class in the pattern is within the Basic Multilingual Plane and outside the surrogates. So a character outside the BMP is rejected either way, and acceptance is the same.
