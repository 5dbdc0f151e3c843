# Boleto company identification, modelled in Dafny

This project models the part of the chatbot that reads a boleto (a Brazilian
payment slip) and works out who issued it and who pays it. The boleto text
is searched for CNPJs (the 14-digit Brazilian company registration numbers,
written `NN.NNN.NNN/NNNN-NN` with each separator optional). Each CNPJ found
is looked up in two datasets:

- the *transmissoras* (transmission companies, the boleto's beneficiary),
  a JSON object `{"results": [{"items": [...]}]}`;
- the *empresas pagadoras* (paying companies), a JSON object
  `{category: {company code: record}}`.

The result records the first transmissora found, the first paying company
found, every CNPJ extracted and whether anything was identified. The
project also models the chat page's routing decision: plain chat,
retrieval over the uploaded documents, or company identification.

Modules:

- `Wrappers`: `Option`.
- `Text`: ASCII digits, `upper`/`lower`, and substrings (Python's `in`).
- `Json`: an object member that is absent, `null` or present, read with
  `dict.get(k)` or `dict.get(k, default)`.
- `CnpjText`:
  - `normalize_cnpj`;
  - the CNPJ regular expression, both as its language (`Accepts`) and as a
    greedy matcher (`MatchTokens`, proved equal for this pattern);
  - `re.findall` (`Scan`, characterised by `FindAllFrom`);
  - `extract_cnpjs_from_text`.
- `CompanyLookup`: `find_transmissora` and `find_empresa_pagadora`. A
  search returns `NotFound`, `Found(record)` or `Raised` (a Python
  exception that escapes the function).
- `BoletoIdentification`: `identify_companies_from_boleto`.
  - It is a method with the source's loop.
  - The method is proved equal to the function `Identify`.
  - Lemmas about `Identify` carry the source's promises.
- `ChatRouting`: the route chosen for a prompt.

Python behaviour the model keeps:

- `find_transmissora` reads only the first result page.
- A `null` `results` or `items`, or an empty `results` list, raises. Only
  a missing key falls back to the default.
- A name query raises on a record whose `nome` is `null`: `None` has no
  `upper`.
- An exception ends the identification loop, and the result built so far
  is returned with `sucesso` false.
- A call with no criterion still evaluates `results[0]` at
  utils/company_identifier.py:56, so a broken transmissoras dataset raises
  even then (see `CompanyLookup.NoCriterionFindsNothing`).
- `find_transmissora` and `find_empresa_pagadora` catch nothing. An
  exception reaches `identify_companies_from_boleto`, which returns its
  partial result.
- A `null` category value raises at `.items()`, and a `null` company record
  raises at `.get` when the CNPJ search key has digits or a name is given. A transmissora
  already found is kept in the partial result (see
  `BoletoIdentification.IdentifyKeepsTransmissoraOnException`).

## Model

| member | source | states |
|---|---|---|
| Text.Digits | utils/company_identifier.py:32 | the result is all digits and no longer than the input; `DigitsAppend`, `DigitsFixpoint` and `DigitsOfNonDigits` characterise it |
| Text.DigitsIdempotent | utils/company_identifier.py:32 | keeping the digits twice is keeping them once |
| Text.DigitsAppend | utils/company_identifier.py:32 | keeping the digits distributes over concatenation |
| Json.GetOrAgreesWithGet | utils/company_identifier.py:62 | `get(k, default)` and `get(k)` differ exactly on an absent key, and `get(k, default)` is `None` iff the value is `null`: the default does not protect `.upper()` from a `null` name |
| CnpjText.NormalizeCnpj | utils/company_identifier.py:27-33 | None gives ""; otherwise the result is exactly the input's digits, in order (an empty string gives ""); the result is all digits |
| CnpjText.NormalizeIdempotent | utils/company_identifier.py:27-33 | normalising a normalised CNPJ changes nothing |
| CnpjText.CnpjPatternShape | utils/company_identifier.py:40 | the pattern has 14 digits, and each optional separator is a non-digit followed by a digit run, so the match at a position is unique |
| CnpjText.MatchTokensExact | utils/company_identifier.py:40 | for such patterns, the greedy matcher ends at `e` iff `s[i..e]` is in the regular expression's language |
| CnpjText.AcceptedDigits | utils/company_identifier.py:40 | a text in the language of such a pattern has exactly as many digits as the pattern asks for |
| CnpjText.MatchAtExact | utils/company_identifier.py:40 | the CNPJ match at `i` ends at `e` iff `s[i..e]` is in the CNPJ pattern's language |
| CnpjText.NoMatchAtNonDigit | utils/company_identifier.py:40 | no match starts at a non-digit |
| CnpjText.FormattedAccepted | utils/company_identifier.py:39-40 | the 14 digits with any subset of the four separators `.`, `.`, `/`, `-` are in the language: each separator is optional on its own |
| CnpjText.FormattedDigits | utils/company_identifier.py:32-40 | removing the non-digits from such a formatted CNPJ gives back its 14 digits |
| CnpjText.FormattedMatchAt | utils/company_identifier.py:40 | a formatted CNPJ at `pos` is matched exactly to its end, and its digits are the CNPJ |
| CnpjText.MatchTokens | utils/company_identifier.py:40 | the greedy matcher for a token pattern; characterised by `MatchTokensExact` |
| CnpjText.MatchAt | utils/company_identifier.py:40-41 | a CNPJ match starting at `i` ends at least 14 characters later and within the text; characterised by `MatchAtExact` |
| CnpjText.Scan | utils/company_identifier.py:41 | `re.findall`'s scan; characterised by `ScanFindsAll`, `ScanStepMiss` and `ScanStepMatch` |
| CnpjText.ScanFindsAll | utils/company_identifier.py:41 | `findall`'s spans are matches, lie left to right without overlapping, and every position where the pattern matches lies inside one of them |
| CnpjText.ScanStepMiss | utils/company_identifier.py:41 | with no match at `pos`, the search resumes at `pos + 1` |
| CnpjText.ScanStepMatch | utils/company_identifier.py:41 | a match at `pos` is recorded, and the search resumes at its end |
| CnpjText.ScanSkipsNonDigits | utils/company_identifier.py:41 | a run of non-digits adds no match |
| CnpjText.ExtractCnpjs | utils/company_identifier.py:35-42 | every extracted CNPJ has 14 characters, all digits |
| CnpjText.Lexemes | utils/company_identifier.py:42 | one normalised CNPJ per match, each 14 digits |
| CnpjText.LexemesDigits | utils/company_identifier.py:42 | the k-th CNPJ is the digits of the k-th match's text |
| CnpjText.ExtractedDigits | utils/company_identifier.py:41-42 | the result has one element per `findall` match, in order, and each is the digits of its match |
| CnpjText.ExtractNothingIff | utils/company_identifier.py:35-42 | the result is empty iff the pattern matches at no position |
| CnpjText.ExtractOne | utils/company_identifier.py:35-42 | a text that is one formatted CNPJ (any separators) gives exactly that CNPJ's digits |
| CnpjText.ScanTwoMatches | utils/company_identifier.py:41 | two matches separated by non-digits are the two spans `findall` returns |
| CnpjText.ExtractTwo | utils/company_identifier.py:35-42 | two formatted CNPJs separated by non-digits give `[d1, d2]`, in text order; a repeated CNPJ is kept twice |
| CompanyLookup.FirstMatch | utils/company_identifier.py:56-69 | the loop finds nothing iff every item misses; otherwise it stops at the first decisive item, returning it on a hit and raising on a fault |
| CompanyLookup.FirstMatchAt | utils/company_identifier.py:56-67 | if item `i` is the first decisive one, the loop returns it on a hit and raises on a fault |
| CompanyLookup.SearchKey | utils/company_identifier.py:53 | the search key exists iff the CNPJ argument is truthy, and it is then the argument's digits |
| CompanyLookup.NameVerdict | utils/company_identifier.py:62 | the name test on one record; characterised by `NameVerdictMeaning` |
| CompanyLookup.NameVerdictMeaning | utils/company_identifier.py:62-63 | the name test hits iff a name is asked for and the record's name is equal ignoring case; it raises iff a name is asked for and the record's name is `null` |
| CompanyLookup.TransmissoraVerdict | utils/company_identifier.py:58-67 | the three tests of the loop body, in order; characterised by `TransmissoraVerdictMeaning` |
| CompanyLookup.TransmissoraVerdictMeaning | utils/company_identifier.py:56-67 | a record is taken iff the CNPJ, the name or the ONS code test holds, unless the name test raises first; it raises only when the CNPJ test failed |
| CompanyLookup.FindTransmissora | utils/company_identifier.py:44-69 | no dataset gives not found; a `null` or empty `results`, or a `null` first `items`, raises |
| CompanyLookup.FindTransmissoraScans | utils/company_identifier.py:56-69 | on a well-formed dataset: not found iff no item of the first page satisfies a criterion; otherwise the first decisive item is returned on a hit, or the call raises on a fault |
| CompanyLookup.FindTransmissoraSearchesItems | utils/company_identifier.py:56-69 | on a dataset whose shape does not raise, the search is the first-decisive scan of the first page's items |
| CompanyLookup.NoCriterionFindsNothing | utils/company_identifier.py:44-69 | with no truthy criterion the result is not found, except that a broken dataset still raises |
| CompanyLookup.EmptyCnpjKeyFindsNothing | utils/company_identifier.py:53-58 | a CNPJ with no digits matches no record |
| CompanyLookup.CnpjQueryRaisesIffBroken | utils/company_identifier.py:56-58 | a CNPJ-only search raises iff the dataset is broken |
| CompanyLookup.CnpjHitHasSupplierCode | utils/company_identifier.py:58-59 | a record found by CNPJ has a `codigo_fornecedor` whose digits are the CNPJ's digits |
| CompanyLookup.OnlyFirstPageSearched | utils/company_identifier.py:56 | pages after the first never change the result |
| CompanyLookup.FirstHitReturned | utils/company_identifier.py:56-67 | the first item satisfying a criterion is the one returned, whatever follows it |
| CompanyLookup.EmpresaVerdict | utils/company_identifier.py:86-103 | the CNPJ test, then the name test, on a record that is an object; characterised by `RecordVerdictMeaning` |
| CompanyLookup.RecordVerdictMeaning | utils/company_identifier.py:84-103 | a company record is taken iff it is an object and the CNPJ test or the name test holds; the tests raise on a `null` record iff the CNPJ search key has digits or a name is given, and on an object iff the CNPJ test fails and the name test meets a `null` name |
| CompanyLookup.RecordVerdict | utils/company_identifier.py:84-96 | the tests of one inner-loop iteration on a record that may be `null`; characterised by `RecordVerdictMeaning` |
| CompanyLookup.SearchCompanies | utils/company_identifier.py:84-103 | the inner loop over one category's companies; characterised by `SearchCompaniesFlat` |
| CompanyLookup.SearchCategories | utils/company_identifier.py:83-105 | the outer loop over the categories; characterised by `SearchCategoriesFlat` |
| CompanyLookup.FindEmpresaPagadora | utils/company_identifier.py:71-77 | no dataset gives `(None, None)` |
| CompanyLookup.FindEmpresaPagadoraScans | utils/company_identifier.py:83-105 | categories in order, then companies in order: not found iff no entry is decisive; otherwise the first decisive entry gives, on a hit, its category and its record reshaped with `codigo` = its key, `categoria` = that category and the other fields read with `get`; on a fault (a `null` category, a `null` record or a `null` name) the call raises |
| CompanyLookup.SearchCompaniesFlat | utils/company_identifier.py:84-103 | the inner loop is the first-hit search over that category's companies |
| CompanyLookup.FirstMatchAppend | utils/company_identifier.py:83-84 | searching two lists in turn is searching their concatenation |
| CompanyLookup.SearchCategoriesFlat | utils/company_identifier.py:83-105 | the nested loops are the first-hit search over all (category, company) pairs in order |
| CompanyLookup.EmpresaCnpjQueryRaisesOnlyOnNull | utils/company_identifier.py:83-105 | a CNPJ-only search of the paying companies raises only when some category value or company record is `null` |
| CompanyLookup.NullCategoryRaises | utils/company_identifier.py:83-84 | a `null` first category makes every search raise, whatever the query |
| CompanyLookup.NullRecordRaises | utils/company_identifier.py:84-86 | a `null` first record makes a search by a CNPJ with digits raise |
| CompanyLookup.NullRecordSkippedWithoutDigits | utils/company_identifier.py:80-86 | a CNPJ argument without digits passes over a `null` record without raising, and finds nothing |
| CompanyLookup.NullRecordRaisesOnName | utils/company_identifier.py:84-96 | a `null` first record makes a search by a non-empty name raise |
| CompanyLookup.NullFreeEntries | utils/company_identifier.py:83-86 | in data without `null` categories or records, every flattened entry is a company with a record |
| CompanyLookup.EmpresaFirstHitReturned | utils/company_identifier.py:83-103 | if the first decisive entry is a hit, it is a company with a record, and the search returns that company with its category |
| BoletoIdentification.TryTransmissora | utils/company_identifier.py:126-129 | looking for a transmissora never touches the paying-company slot |
| BoletoIdentification.TryEmpresa | utils/company_identifier.py:132-135 | looking for a paying company never touches the transmissora slot |
| BoletoIdentification.Step | utils/company_identifier.py:124-135 | one loop iteration; characterised by `RunAdvances` and `RunStopsAtException` |
| BoletoIdentification.Run | utils/company_identifier.py:124-135 | the loop over a CNPJ list; characterised by `RunSnoc`, `RunFillsTransmissora`, `RunFillsEmpresa`, `RaisingStep` and `RunNeverRaises` |
| BoletoIdentification.RunSnoc | utils/company_identifier.py:124-135 | one more CNPJ is one more loop iteration |
| BoletoIdentification.RunAdvances | utils/company_identifier.py:124-135 | an iteration that does not raise runs the transmissora step and then the paying-company step |
| BoletoIdentification.RunStopsAtException | utils/company_identifier.py:118-144 | once an iteration raises, later CNPJs change nothing |
| BoletoIdentification.Identify | utils/company_identifier.py:107-144 | `cnpjs_encontrados` is the extraction result, and `sucesso` implies a filled slot |
| BoletoIdentification.IdentifyCompaniesFromBoleto | utils/company_identifier.py:107-144 | the loop computes `Identify` of its inputs |
| BoletoIdentification.FirstSome | utils/company_identifier.py:124-135 | reference definition of "the earliest answer": none iff all are none, else the first that is some |
| BoletoIdentification.FirstSomeSnoc | utils/company_identifier.py:124-135 | a later answer counts only while no earlier one exists |
| BoletoIdentification.FoundTransmissoraIsTruthy | utils/company_identifier.py:127-128 | a record found by CNPJ is a non-empty dictionary, so `if transmissora:` is true |
| BoletoIdentification.RunNeverRaises | utils/company_identifier.py:118-140 | with well-shaped data (a well-formed transmissoras dataset, and no `null` category or company record), no iteration raises |
| BoletoIdentification.TryTransmissoraAnswers | utils/company_identifier.py:126-129 | a filled transmissora slot stays; an empty one takes this CNPJ's answer |
| BoletoIdentification.TryEmpresaAnswers | utils/company_identifier.py:132-135 | a filled paying-company slot stays; an empty one takes this CNPJ's answer |
| BoletoIdentification.TryTransmissoraFills | utils/company_identifier.py:126-129 | a transmissora search that does not raise keeps a filled slot and fills an empty one with this CNPJ's answer |
| BoletoIdentification.TryEmpresaFills | utils/company_identifier.py:132-135 | a paying-company search that does not raise keeps a filled slot and fills an empty one with this CNPJ's answer |
| BoletoIdentification.RunPrefixNotRaised | utils/company_identifier.py:124-135 | a loop that raises nothing raised nothing in any earlier iteration or search |
| BoletoIdentification.RunFillsTransmissora | utils/company_identifier.py:124-129 | whenever the loop raises nothing, whatever the data, the transmissora slot holds the answer for the earliest CNPJ that has one |
| BoletoIdentification.RunFillsEmpresa | utils/company_identifier.py:124-135 | whenever the loop raises nothing, whatever the data, the paying-company slot holds the answer for the earliest CNPJ that has one |
| BoletoIdentification.FirstRaise | utils/company_identifier.py:124-135 | a loop that raises has a first iteration that raises |
| BoletoIdentification.RaisingStep | utils/company_identifier.py:124-135 | after the first iteration that raises, the transmissora slot is the earliest answer among the CNPJs up to it, and the paying-company slot the earliest among the CNPJs before it |
| BoletoIdentification.RunRaisesAtOnce | utils/company_identifier.py:124-127 | with a broken transmissoras dataset, the first iteration raises and both slots stay empty |
| BoletoIdentification.IdentifyFillsEarliest | utils/company_identifier.py:118-140 | whenever the loop raises nothing (which `RunNeverRaises` guarantees for well-shaped data, and which also holds when a `null` is never reached): the CNPJ list is the extraction result, each slot holds the earliest answer, and `sucesso` holds iff a slot is filled |
| BoletoIdentification.RunOnException | utils/company_identifier.py:124-135 | a loop that raises ends with the slots its first raising iteration left (`RaisedAt`) |
| BoletoIdentification.ReturnOnException | utils/company_identifier.py:142-144 | an exception in iteration `i` returns the slots as that iteration left them, every extracted CNPJ, and `sucesso` false |
| BoletoIdentification.IdentifyOnException | utils/company_identifier.py:118-144 | whenever the loop raises: the result lists every extracted CNPJ, has `sucesso` false, and keeps the slots as the first raising iteration left them (earliest transmissora up to that CNPJ, earliest paying company before it) |
| BoletoIdentification.IdentifyReturnsPartialResult | utils/company_identifier.py:142-144 | with a broken transmissoras dataset and at least one CNPJ, the first search raises: the result is the CNPJ list with both slots empty and `sucesso` false |
| BoletoIdentification.IdentifyKeepsTransmissoraOnException | utils/company_identifier.py:118-144 | if the first CNPJ finds a transmissora and its paying-company search raises, the result keeps that transmissora, with no paying company, every extracted CNPJ and `sucesso` false |
| BoletoIdentification.IdentifyWithoutData | utils/company_identifier.py:48-50 | when loading fails (both datasets absent), nothing is found, nothing raises, and the result lists the extracted CNPJs with `sucesso` false |
| BoletoIdentification.SlotsNeverOverwritten | utils/company_identifier.py:126-135 | a filled slot keeps its value through any further CNPJs |
| ChatRouting.MentionsAny | app.py:78 | true iff some keyword is a substring of the text |
| ChatRouting.ChooseRoute | app.py:67-99 | normal chat iff documents are not processed or there is no vector store; otherwise identification iff some keyword is a substring of the lower-cased prompt, and retrieval iff none is |
| ChatRouting.RouteIgnoresCase | app.py:71-78 | upper-casing or lower-casing the prompt does not change the route |
| ChatRouting.EmpresasTriggersIdentification | app.py:71-78 | keywords match as substrings, so any prompt containing "empresas" goes to identification |
| ChatRouting.EmpresasExample | app.py:71-78 | "Quais EMPRESAS pagam?" goes to identification |
| ChatRouting.CapitalsAt | app.py:77 | "EMPRESAS" in a prompt becomes "empresas" in its lower-cased form |
| ChatRouting.PhrasesAreRedundant | app.py:71-78 | dropping "qual empresa" and "qual transmissora" from the keywords changes no `any(...)` outcome |
| ChatRouting.EssentialWordsRouteAlike | app.py:67-80 | routing with the shorter keyword list gives the same route for every prompt |

## Left out

- `load_json_data`, the file reads and `st.error` (utils/company_identifier.py:8-25, 143) are I/O. Each dataset is an `Option` input, where `None` means loading failed. An empty dataset object behaves like one with no match.
- `load_json_data` loads both files in one `try`, so only both datasets or neither occur. The model takes two `Option` inputs, and its lemmas hold for every pair, including the two mixed pairs that cannot occur. `IdentifyWithoutData` covers the case where neither is loaded.
- `IdentifyCompaniesFromBoleto`: the datasets are read once per call rather than once per search. This makes no difference while the files do not change during a call.
- Character classes are ASCII:
  - `\d` is `0`-`9`;
  - `upper`/`lower` map only `a`-`z` and `A`-`Z`;
  - Unicode digits and case mappings are not modelled.
- Values of an unexpected JSON type are not modelled. Record fields and query values are strings. A category value and a company record are an object or `null`. Result pages and transmissora records are objects. The `str()` call on a non-string argument is not modelled.
- A `null` transmissora record is not modelled. It would raise when a search with a truthy criterion reaches it before a hit, and never otherwise. `IdentifyOnException` gives the result for any run that raises, whatever made it raise.
- The boleto text is a string. A non-string argument, which would make extraction itself raise, is not modelled.
- Found transmissora records keep only the keys the code reads (`nome`, `codigo_fornecedor`, `codigo_ons`, `id_transmissora`). Other keys matter only for the truthiness of an otherwise empty record.
- `ChooseRoute`:
  - the session flags are booleans;
  - `documents_processed`'s truthiness and `vectorstore is not None` are given as parameters;
  - the three answer functions (`get_boleto_identification_response`, `get_rag_response`, `get_normal_response`) and the language model are not part of this model.
- The rest of `app.py`, the document processor, the chat model, the sidebar and the settings are user interface or calls into language-model and embedding libraries, and are not part of this model.
