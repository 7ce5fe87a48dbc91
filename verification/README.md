# meli_item_fetcher, modelled in Dafny

`meli_item_fetcher.py` is a command-line tool. It reads a Mercado Livre
client id (`MELI_APP_ID`) and a listing identifier (an `MLB...` code). It
fetches the listing from the public items API with one GET request, then
prints the listing's photo URLs and variation ids. This project models the
deterministic part of that flow as pure functions over immutable values:

- `json.dfy` (`Json`): the decoded document as a JSON value, with Python
  truthiness written out as `Truthy`.
- `extractor.dfy` (`Extractor`): `extract_item_info`. `Extractable` is
  exactly the set of documents on which the Python code returns instead of
  raising.
- `identifier.dfy` (`Identifier`): `raw.strip().upper()` and the `MLB`
  prefix check. Strip is characterised independently: `StripUnique` shows
  that any trimming of whitespace runs that leaves non-space ends is the
  strip.
- `fetcher.dfy` (`Fetcher`): `get_item_details`. This covers the two
  guards, the URL and header, and the classification of the reply. The
  network call and JSON parser are replaced by a `Reply` value passed in by
  the caller. The model records which request, if any, was sent.
- `orchestrator.dfy` (`Orchestrator`): `main` from the credential lookup
  to the extraction of the fetched document.
- `wrappers.dfy` (`Wrappers`): `Option` and `Result`.

The model follows the code in these places:

- `raise_for_status` rejects only statuses 400–599. A 1xx, 3xx or 6xx reply
  therefore goes on to JSON decoding and can produce a document. It is not
  reported as a status error.
- A falsy document gives `(None, None)`, not two empty lists.
- Extraction can raise. This happens when a selected `pictures` or
  `variations` entry is not a list of dicts carrying `secure_url` or `id`,
  or when the document is a list, string or number that trips the `in`
  test. `Main` reports these runs as `Raised`.
- A document that decodes to a falsy value (`null`, `{}`, `[]`, `0`, `""`)
  is skipped silently, like a failed fetch: `NoItem(None)`.

## Model

| member | source | states |
|---|---|---|
| Json.Truthy | meli_item_fetcher.py:51 | a value is falsy exactly when it is `null`, `false`, zero, `""`, `[]` or `{}`, the truthiness the tests at lines 51, 55, 59, 76 and 89 use |
| Extractor.Extractable | meli_item_fetcher.py:51-60 | the exact set of documents on which extraction returns instead of raising: falsy ones; dicts whose selected `pictures`/`variations` are lists of dicts carrying `secure_url`/`id`; lists and strings that `in` does not match |
| Extractor.Project | meli_item_fetcher.py:56 | the comprehension keeps length and order: element i is entry i's value under the key |
| Extractor.Collect | meli_item_fetcher.py:54-60 | a list is `[]` unless its field is present and truthy; then it is entry-by-entry the projection of that field |
| Extractor.Extract | meli_item_fetcher.py:47-68 | `None` exactly for a falsy document; a dict gives `pictures[i] == pictures-entry i's secure_url` and `ids[i] == variations-entry i's id`, each `[]` when absent or empty; a truthy non-dict gives two empty lists |
| Extractor.PicturesDependOnlyOnPictures | meli_item_fetcher.py:54-56 | two truthy dict documents that agree on `pictures` yield the same photo list |
| Extractor.VariationsDependOnlyOnVariations | meli_item_fetcher.py:58-60 | two truthy dict documents that agree on `variations` yield the same id list |
| Extractor.OtherKeysIrrelevant | meli_item_fetcher.py:54-60 | setting `attributes` or any other key keeps the document extractable and changes neither list |
| Extractor.EmptyDocumentGivesNone | meli_item_fetcher.py:51-52 | an empty dict and `null` give `(None, None)`, not empty lists |
| Extractor.OnePictureNoVariations | meli_item_fetcher.py:54-60 | the one-picture, empty-variations document gives `["https://x/1.jpg"]` and `[]` |
| Extractor.TwoVariationsInOrder | meli_item_fetcher.py:58-60 | `variations = [{id:"A"},{id:"B"}]` gives `["A","B"]` in that order |
| Identifier.IsSpace | meli_item_fetcher.py:81 | the whitespace set of Python's `str.isspace`, which `strip()` removes |
| Identifier.LeadingSpaces | meli_item_fetcher.py:81 | the count covers exactly the maximal whitespace run at the start |
| Identifier.TrailingSpaces | meli_item_fetcher.py:81 | the count covers exactly the maximal whitespace run at the end |
| Identifier.Strip | meli_item_fetcher.py:81 | the result is the input minus whitespace-only runs at both ends, and neither of its ends is whitespace |
| Identifier.StripUnique | meli_item_fetcher.py:81 | any trimming of whitespace runs whose ends are not whitespace equals `Strip`, so `Strip` is Python's `strip()` |
| Identifier.StripIdempotent | meli_item_fetcher.py:81 | stripping twice equals stripping once |
| Identifier.Upper | meli_item_fetcher.py:81 | upper-casing keeps the length and maps each character on its own |
| Identifier.UpperIdempotent | meli_item_fetcher.py:81 | the result has no lower-case ASCII letter, and upper-casing it again changes nothing |
| Identifier.UpperKeepsSpace | meli_item_fetcher.py:81 | a character is whitespace exactly when its upper-cased form is |
| Identifier.StripUpperCommute | meli_item_fetcher.py:81 | strip-then-upper equals upper-then-strip |
| Identifier.UpperPrefix | meli_item_fetcher.py:83 | the upper-cased string starts with `MLB` iff the string starts with m, l, b in either case |
| Identifier.Validate | meli_item_fetcher.py:81-85 | accepted iff the stripped input starts with `mlb` case-insensitively; an accepted id is the normalised input, starts with `MLB`, has the stripped length and no surrounding whitespace |
| Identifier.AcceptsPaddedLowerCase | meli_item_fetcher.py:81-83 | `" mlb123 "` is accepted as `"MLB123"` |
| Identifier.RejectsMisplacedPrefix | meli_item_fetcher.py:83-85 | `"xmlb1"` is rejected: the prefix must open the identifier |
| Fetcher.ItemRequest | meli_item_fetcher.py:23-27 | the request's URL is the item URL, and its header map has exactly one entry, `User-Agent: MeliItemFetcherApp/1.0` |
| Fetcher.ItemUrlRoundTrip | meli_item_fetcher.py:23 | for an item id without `?`, splitting the URL at the first `?` recovers exactly the item id and the credential |
| Fetcher.ItemUrlAmbiguous | meli_item_fetcher.py:23 | with no escaping, two different (item id, credential) pairs can build the same URL |
| Fetcher.ErrorStatus | meli_item_fetcher.py:35 | `raise_for_status` raises exactly for statuses 400 through 599 |
| Fetcher.Classify | meli_item_fetcher.py:33-45 | a record comes back iff the reply is a response with a status outside 400–599 whose body decodes, and it is the decoded body; a transport failure, an error status (with its body) and an undecodable body (with the body) each give the matching error |
| Fetcher.ErrorStatusIgnoresBody | meli_item_fetcher.py:35-36 | an error status is reported before and regardless of decoding: the body's decodability does not change the outcome |
| Fetcher.GetItemDetails | meli_item_fetcher.py:11-45 | no request is sent iff the item id is empty or the credential is missing or empty, with the matching error; otherwise exactly the item request is sent and its reply is classified; a record implies a sent request with a non-error status that decoded to it |
| Fetcher.GuardsPrecedeNetwork | meli_item_fetcher.py:15-20 | when a guard fires, the outcome is a failure and does not depend on the reply |
| Fetcher.NotFoundExample | meli_item_fetcher.py:35-39 | a 404 with body `{"message":"not found"}` gives that status and body as an HTTP error |
| Fetcher.NonJsonBodyExample | meli_item_fetcher.py:36-44 | a 200 with a non-JSON body gives a decode error carrying that exact body |
| Orchestrator.Credential | meli_item_fetcher.py:74 | the credential is usable exactly when `MELI_APP_ID` is set to a non-empty string, since the in-source default `APP_ID` is `None` |
| Orchestrator.Finish | meli_item_fetcher.py:89-94 | a falsy document is skipped; only a truthy, extractable dict is extracted, and the result is its extraction; every other truthy document (a non-dict, which has no `.get` at line 90, or a dict on which line 56 or 60 raises) ends in `Raised` |
| Orchestrator.Main | meli_item_fetcher.py:74-94 | no credential stops the run; a rejected id stops it with no request; a request goes out iff both pass, and it is built from the normalised id and the credential; once the request is sent, a failed classification ends the run with exactly that error (never a guard error) and a decoded document ends it with `Finish` of that document |
| Orchestrator.FetchFailurePropagates | meli_item_fetcher.py:33-45 | after the item request is sent, a transport, status or decode failure ends the run as that classified error |
| Orchestrator.SuccessfulFetchFinishes | meli_item_fetcher.py:87-94 | after the item request is sent, a decoded document ends the run with what `Finish` makes of it |
| Orchestrator.CredentialCheckedFirst | meli_item_fetcher.py:74-81 | with no usable credential, neither the typed identifier nor the reply affects the run, and nothing is sent |
| Orchestrator.RejectedIdNeverFetched | meli_item_fetcher.py:83-87 | a rejected identifier sends no request, and the reply is irrelevant |
| Orchestrator.WellFormedDocumentIsExtracted | meli_item_fetcher.py:87-94 | a valid run whose reply decodes to a non-empty, extractable dict always ends in that dict's extraction |
| Orchestrator.PipelineExample | meli_item_fetcher.py:74-94 | credential `"42"`, input `" mlb123 "` and a one-picture reply send `https://api.mercadolibre.com/items/MLB123?client_id=42` with the one header, then extract `["https://x/1.jpg"]` and `[]` |

## Left out

- The HTTP call and the JSON parser (`requests.get`, `response.json()`): these are foreign library calls. They are the `Reply` input value. Its status is the final one, after any redirects `requests` followed. Its `decoded` field is the parser's verdict on the body.
- Which `except` clause reports a decode failure depends on the installed `requests` version's exception hierarchy. The model records it as `DecodeError(body)` and promises only that no record results.
- `os.getenv` and `input()`: these are I/O. They are the parameters `env` and `rawId`. An `EOFError` from `input()` is not modelled.
- All printed diagnostics and the result display, including the "single variation" attribute heuristic (lines 96–119). This is presentation only. The branch at line 114 can never run, because `variation_ids` is empty only when `variations` is falsy.
- Orchestrator.Finish: it stops once the lists are extracted. The attribute heuristic at lines 111–112 could still raise afterwards on an oddly shaped `attributes` field; that is not modelled.
- Identifier.Upper: only ASCII letters are upper-cased. Python's full Unicode mapping is not modelled, including mappings that change length such as `ß` → `SS`. No non-ASCII character upper-cases to `M`, so the accept/reject decision is unaffected.
- Json.Value: JSON numbers are reals. The parser's `NaN` and `Infinity` extensions are not modelled.
- The `__main__` entry point, connection lifetime and timeouts: there is no state or timing to model.
