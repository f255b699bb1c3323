# Bulk ticket pipeline of fluig-chamados-webapp

This project models the bulk ticket pipeline of the FastAPI web application
that opens Fluig help-desk tickets ("chamados") from a spreadsheet. A user
uploads an `.xlsx` sheet. The sheet's non-empty rows are written into a row
store, the temp file `temp.txt`: one section per sheet row and one option per
cell that is not `None` (`''`, `0` and `False` included), keyed by the
lower-cased column letter. A title and a
description template holding placeholders such as `<A>` or `<B>` are then
resolved against each selected row. The result is either shown as a preview
or posted as one ticket per row, and the run keeps counting successes and
failures until every selected row is done.

The modules follow the source files:

- `Common` (common.dfy): the row store (`map<nat, map<string,string>>`), ASCII
  case mapping, decimal rendering of numbers, and `ConfigParser.read` as a
  merge into the parser's current store.
- `Ingestion` (planilha.dfy): cells, sheets and openpyxl column letters, the
  pure definition of what ingestion stores (`Ingest`), and the class
  `Planilha`. Its fields `sheet` and `config` are updated in place, as is the
  shared `TempFile` object (`present`, `store`).
- `Placeholders` (placeholders.dfy): the `re.findall` token scan, the
  case-insensitive `re.sub`, and the left fold of substitutions.
- `Selection` (selection.dfy): the sorted section list, the header drop, the
  start filter and Python's `[:qtd]` slice, with a negative `qtd` included.
- `Tickets` (abrir_chamados.dfy): ticket creation as an outcome-to-result
  function, `processar_chamado`, the specification of a run (`Run`,
  `Sequencia`), and the class `AbrirChamados`, whose methods are proved
  against that specification.
- `ChamadoRoutes` (rt_chamado.dfy): the upload route, the bulk form route
  and the preview route, with the result message.
- `ChamadoScript` (chamado_js.dfy): `escapeHtml`, the `(vazio)` fallback and
  the default quantity of the page script.
- `AuthApi` (auth_api.dfy): the API-key guard.

The ticket endpoint is a parameter `net: (nat, Draft) -> PostOutcome`: it
gives the outcome of the `k`-th POST of a draft. Whether storing and writing
the ingested rows went through is a parameter `saveOk`. A workbook that
openpyxl cannot load is the value `Unreadable(reason)`.

Two behaviours of the code are worth knowing:

- Placeholder resolution substitutes each found token into the text the
  earlier tokens produced (src/modulos/abrir_chamados.py:74-92), so a
  column value that holds a later token of the template is expanded in its
  turn (`Placeholders.ChainedExpansion`). When no column value holds a `<`,
  this is the same as filling every placeholder independently
  (`Placeholders.ResolveTemplate`).
- The bulk route removes the temp file only after a completed run
  (src/rotas/rt_chamado.py:205-207). An ingestion error leaves it in place,
  emptied by the ingestor (`ChamadoRoutes.CriarChamadosLote`).

## Model

| member | source | states |
|---|---|---|
| AuthApi.AuthApiKey | src/auth/auth_api.py:15-36 | An empty server key gives 500 without a challenge. A missing or empty header gives 401 with the `ApiKey` challenge. A different header gives 403 with the challenge. The key is accepted iff the server key is set and the header equals it, and the accepted value is that key. |
| AuthApi.GuardOrder | src/auth/auth_api.py:16-34 | The first failing guard decides. A missing server key answers the same whatever header was sent. A missing or empty header answers the same whatever server key is set. |
| ChamadoScript.EscapeHtmlRoundTrip | src/static/js/chamado.js:163-172 | Reading the five entities back yields the original text, because entities inserted by the replacement are not escaped again. |
| ChamadoScript.EscapeHtmlSafe | src/static/js/chamado.js:171 | The escaped text contains no `<`, `>`, `"` or `'`. |
| ChamadoScript.EscapeHtmlPlain | src/static/js/chamado.js:171 | Text without any of `& < > " '` is returned unchanged. |
| ChamadoScript.EscapeHtmlAppend | src/static/js/chamado.js:171 | Escaping distributes over concatenation, so every character is replaced independently and in order. |
| ChamadoScript.EscapeLessThan | src/static/js/chamado.js:164-171 | `<` becomes `&lt;` and not `&amp;lt;`. |
| ChamadoScript.DisplayTextShown | src/static/js/chamado.js:102-106 | The page shows `(vazio)` for an empty title or description and the text itself otherwise. |
| ChamadoScript.QtdChamados | src/static/js/chamado.js:42 | `NaN` and `0` give the default 5. Any other parsed number, negative ones included, is kept. The result is never 0. |
| Common.ParseNatToString | src/modulos/abrir_chamados.py:210-213 | `int(str(n)) == n`: a row number written as a section name reads back as the same number. |
| Common.NatToStringInjective | src/modulos/planilha.py:45 | Distinct row numbers give distinct section names. |
| Common.MergeSpec | src/modulos/abrir_chamados.py:42 | Reading the temp file into a fresh parser yields exactly the file's store. Reading into a parser that already has content gives the union of both stores' sections, and in each section the union of both option sets. An option the file has takes the file's value, and every other option keeps the value it held. |
| Placeholders.FindTokensEmpty | src/modulos/abrir_chamados.py:70 | The scan finds no token iff `<[A-Z]+>` matches nowhere in the text. |
| Placeholders.FindTokensSound | src/modulos/abrir_chamados.py:70 | Every found group is a non-empty run of capital letters whose token occurs in the scanned text. |
| Placeholders.FindTokensToken | src/modulos/abrir_chamados.py:70 | A token at the front is found whole, and the scan goes on after its `>`. Duplicates are kept. |
| Placeholders.FindTokensSkipsPlain | src/modulos/abrir_chamados.py:70 | Text without `<` contributes no token and does not disturb the scan of what follows. |
| Placeholders.ReplaceAllNoMatch | src/modulos/abrir_chamados.py:80-85 | Where the token occurs nowhere, ignoring case, the text is unchanged. |
| Placeholders.ReplaceAllFirstMatch | src/modulos/abrir_chamados.py:80-85 | The text before the first case-insensitive occurrence is copied, that occurrence becomes the value, and the scan resumes after it. |
| Placeholders.TokenMatchesUpper | src/modulos/abrir_chamados.py:80-85 | A placeholder written in any letter case matches the upper-case pattern (`re.IGNORECASE`). |
| Placeholders.LongerTokenUntouched | src/modulos/abrir_chamados.py:80-85 | Substituting `<X>` leaves a longer token `<XY>` alone, because the pattern needs `>` right after the letters. |
| Placeholders.ResolveNoToken | src/modulos/abrir_chamados.py:66-73 | An empty template, or one with no `<[A-Z]+>` after upper-casing, is returned unchanged. |
| Placeholders.ResolveUnknownColumns | src/modulos/abrir_chamados.py:74-90 | When no found token names a column of the row, the template comes back verbatim, tokens in their original case included. This is not an error. |
| Placeholders.ResolveSingleToken | src/modulos/abrir_chamados.py:70-92 | For a template with one placeholder in any letter case: the placeholder becomes the column's value when the column exists, and otherwise the template is unchanged. |
| Placeholders.FindTemplate | src/modulos/abrir_chamados.py:70 | For a template of plain text without `<` and placeholders in any letter case, the scan of the upper-cased text finds one entry per placeholder, upper-cased and in order. |
| Placeholders.ReplaceTemplate | src/modulos/abrir_chamados.py:80-85 | One case-insensitive `re.sub` of `<U>` by a value without `<` replaces exactly the placeholders whose letters equal `U` ignoring case, and leaves the plain text and every other placeholder as written. |
| Placeholders.ApplyTemplate | src/modulos/abrir_chamados.py:73-90 | The loop over a list of letters replaces exactly the placeholders named by some letter of the list whose column exists, when no column value holds a `<`. |
| Placeholders.ResolveTemplate | src/modulos/abrir_chamados.py:66-92 | When neither the plain text nor any column value holds a `<`, every placeholder, in any letter case and however often it occurs, becomes its column's value, and a placeholder without a column stays as written. |
| Placeholders.ResolveTwo | src/modulos/abrir_chamados.py:66-92 | Two placeholders between plain text each become their column's value or stay as written, independently. Placeholders of the same column, such as `<nome>` and `<NOME>`, both get the value. |
| Placeholders.ChainedExpansion | src/modulos/abrir_chamados.py:74-92 | `<A> <B>` with `a = <B>` and `b = x` resolves to `x x`: a later token also acts on text an earlier substitution inserted. |
| Selection.SetMin | src/modulos/abrir_chamados.py:229 | `min(secoes)` is an element of the set and at most every element. |
| Selection.SortedSectionsSpec | src/modulos/abrir_chamados.py:210-213 | The sorted list holds every section number exactly once, strictly ascending. |
| Selection.SortedUnique | src/modulos/abrir_chamados.py:210-213 | Two strictly ascending lists with the same elements are equal, so the sorted list is determined by its set. |
| Selection.SeqMinIsMin | src/modulos/abrir_chamados.py:229 | `min` of a non-empty list is one of its elements and at most every element. |
| Selection.WithoutSpec | src/modulos/abrir_chamados.py:230 | The comprehension keeps exactly the elements other than the minimum, and ascending order is preserved. |
| Selection.AtLeastSpec | src/modulos/abrir_chamados.py:234 | The start filter keeps exactly the elements at or above `inicio_linha`, and ascending order is preserved. |
| Selection.AtLeastAll | src/modulos/abrir_chamados.py:234 | Filtering at a bound every element meets changes nothing. |
| Selection.DropHeaderSorted | src/modulos/abrir_chamados.py:228-230 | On an ascending list, dropping the header drops exactly the first element. |
| Selection.DropHeaderOf | src/modulos/abrir_chamados.py:227-231 | After the header drop the list is ascending and holds exactly the sections other than the smallest one, or all of them when the header is kept. |
| Selection.SelectionIsSmallestEligible | src/modulos/abrir_chamados.py:210-237 | The selection equals the ascending list of eligible rows cut by `[:qtd]`. Eligible rows are those stored, at or after the start, and not the header. |
| Selection.SelectionLength | src/modulos/abrir_chamados.py:237 | The selection has `min(qtd, eligible)` rows for `qtd >= 0`. For a negative `qtd` it has `eligible + qtd` rows, and at least 0. |
| Selection.SelectionSound | src/modulos/abrir_chamados.py:210-237 | The selection is strictly ascending. Every selected row is stored, at or after the start, and not the header. Every eligible row left out is larger than every selected row. |
| Selection.PreviewMatchesRun | src/rotas/rt_chamado.py:438-445 | With no stored row below the start, the preview's selection equals the bulk run's selection. |
| Selection.PreviewTotal | src/rotas/rt_chamado.py:438-441 | The header drop removes exactly one row when it applies and the store is non-empty, and none otherwise. |
| Ingestion.ColumnLetterRoundTrip | src/modulos/planilha.py:51 | A column letter is a non-empty run of capitals that reads back as its column number. |
| Ingestion.ColumnKeyInjective | src/modulos/planilha.py:51-54 | Distinct columns get distinct stored option names, after lower-casing. |
| Ingestion.RowMapCells | src/modulos/planilha.py:49-55 | A kept row's section has an option for a column iff its cell is not `None`, `''` and `0` included. The option's value is `str(value)`. |
| Ingestion.RowMapKeys | src/modulos/planilha.py:49-55 | A section holds no option other than the column keys of its non-`None` cells. |
| Ingestion.IngestSpec | src/modulos/planilha.py:42-56 | The store has a section `n` iff sheet row `n` (1-based) has a truthy cell. That section holds that row's options. |
| Ingestion.IngestStep | src/modulos/planilha.py:42-56 | One more sheet row adds its section and one to the count iff the row is kept, and otherwise changes nothing. |
| Ingestion.IngestCount | src/modulos/planilha.py:56-61 | The number of sections equals the number of kept rows, and it is 0 iff every row is empty. |
| Ingestion.Planilha.constructor | src/modulos/planilha.py:8-13 | Nothing is loaded. The parser is fresh and the temp file exists and is empty. |
| Ingestion.Planilha.ConfigTemp | src/modulos/planilha.py:15-29 | The temp file exists and is empty, and the parser is fresh, so no section of an earlier upload survives. |
| Ingestion.Planilha.CarregarPlanilha | src/modulos/planilha.py:31-34 | A loadable workbook sets the active sheet and resets the store. A loading error is handed back with nothing changed. |
| Ingestion.Planilha.CriarBaseChamados | src/modulos/planilha.py:36-64 | A loading error propagates, with the store reset. Otherwise the parser holds `Ingest(sheet)`. On a successful save the file holds it too and the result is the number of kept rows. A failed save returns `False` and leaves the file empty. |
| Ingestion.Planilha.AdicionarSecao | src/modulos/planilha.py:45-55 | `add_section` followed by the cell loop sets section `n` to the row's options and changes no other section. |
| Ingestion.Planilha.LimparArquivoTemporario | src/modulos/planilha.py:66-72 | The temp file is gone and the parser is empty. |
| Ingestion.Planilha.VerificarArquivoTemporario | src/modulos/planilha.py:74-83 | Returns true iff the temp file exists, and then reads it into the parser. |
| Tickets.CriarChamadoApi | src/modulos/abrir_chamados.py:123-169 | Every outcome of the POST becomes a result, never an exception. `sucesso` is true iff the reply was 2xx with an empty or JSON body. |
| Tickets.CriarChamadoApiInjective | src/modulos/abrir_chamados.py:148-169 | The result tells the outcomes apart: which kind of exception occurred, and its text. |
| Tickets.LinhaNaoEncontradaInjective | src/modulos/abrir_chamados.py:112 | The "row not found" error names the row: different rows give different messages. |
| Tickets.AbrirChamados.constructor | src/modulos/abrir_chamados.py:17-28 | The user's e-mail is kept and the parser is empty. |
| Tickets.AbrirChamados.CarregarDadosTemp | src/modulos/abrir_chamados.py:30-53 | When the file exists it is merged into the parser. The result is true iff the file exists and the parser then holds a section. |
| Tickets.AbrirChamados.SubstituirPlaceholders | src/modulos/abrir_chamados.py:55-92 | The loop over the found tokens yields `Resolve(texto, row)`, the property lemmas of `Placeholders` describe that value, and a missing section counts as an empty row. |
| Tickets.AbrirChamados.ProcessarChamado | src/modulos/abrir_chamados.py:94-121 | A missing section gives the original texts with `Linha N não encontrada`. A present section gives both texts resolved against it, with no error. |
| Tickets.AbrirChamados.AbrirChamadosSequencia | src/modulos/abrir_chamados.py:171-315 | The parser is loaded as `CarregarDadosTemp` says, and the result and the drafts posted are those of `Sequencia`, whose properties are the lemmas below. |
| Tickets.StepSpec | src/modulos/abrir_chamados.py:261-304 | One iteration appends one detail about its row, keeps the earlier ones, and counts the row once. It posts iff the row is present, and the detail reports that POST. |
| Tickets.RunShape | src/modulos/abrir_chamados.py:256-315 | A run has one detail per row. `sucessos + erros` is the number of rows and `sucessos` the number of successful details. One POST is made per present row. |
| Tickets.RunMonotone | src/modulos/abrir_chamados.py:261-304 | The loop only appends: the details and posts of a shorter run are prefixes of a longer one's. |
| Tickets.RunSpec | src/modulos/abrir_chamados.py:256-315 | The loop never stops early. The `i`-th detail is about the `i`-th row. A missing row is an error with no POST. A present row's resolved draft is posted once, in order, and its detail reports that POST's result with the resolved title. |
| Tickets.SequenciaEarlyExits | src/modulos/abrir_chamados.py:198-249 | Each early exit yields `0/0/1` with a single failed detail and posts nothing. The exits are a failed load (line 0), no sections (line 0) and an empty selection (line `inicio_linha`, with the start in the message). |
| Tickets.SequenciaMain | src/modulos/abrir_chamados.py:256-315 | With a non-empty selection, `total_processados == len(detalhes) == sucessos + erros` and every selected row is present. The `i`-th POST is the `i`-th row's resolved draft. The `i`-th detail reports it with the resolved title, and a failed POST does not stop the run. |
| Tickets.RunAllPresent | src/modulos/abrir_chamados.py:261-304 | Over rows that are all stored, there is one POST per row, in order, each reported by its detail. |
| ChamadoRoutes.XlsxCheck | src/rotas/rt_chamado.py:157 | An upload is accepted iff its name ends with `.xlsx`. `.XLSX` is refused. |
| ChamadoRoutes.HeaderFieldFirstRow | src/rotas/rt_chamado.py:192-199 | Over row numbers from 1 and `qtd >= 1`, the smallest row is selected iff the form field is anything but exactly `"1"`. |
| ChamadoRoutes.LoteHeaderRow | src/rotas/rt_chamado.py:192-199 | For a sheet with at least two kept rows and `qtd >= 1`, the bulk run reports on the first kept row iff the form field is anything but exactly `"1"`. |
| ChamadoRoutes.ResultMessageInjective | src/rotas/rt_chamado.py:209-211 | The result message determines both counts. The failure sentence appears iff the failure count is positive. |
| ChamadoRoutes.UploadSuccess | src/rotas/rt_chamado.py:299-370 | The upload succeeds iff the user is logged in, the name ends with `.xlsx`, the workbook loads, the save goes through and some row is kept. It then reports the number of kept rows with status 200. Every failure has another status and no count. |
| ChamadoRoutes.CarregarPlanilhaRota | src/rotas/rt_chamado.py:299-370 | The reply is `UploadSpec`'s. A refused request leaves the temp file alone. An accepted one leaves the temp file holding the ingested sheet, or empty when loading or saving failed. |
| ChamadoRoutes.CriarChamadosLote | src/rotas/rt_chamado.py:155-236 | The page and the posts are `LoteSpec`'s: no file name takes the single-ticket path, a name without `.xlsx` is refused, and otherwise a run from row 1 over the ingested sheet, with the header flag from the form. The temp file is removed only after a completed run. On an ingestion error of an `.xlsx` upload it is left in place and empty. |
| ChamadoRoutes.LoteEmptySelection | src/rotas/rt_chamado.py:191-211 | A bulk submission whose selection is empty still shows the success page, with `0 chamado(s) criado(s) com sucesso! 1 chamado(s) falharam.`, and posts nothing. |
| ChamadoRoutes.PreviewChamados | src/rotas/rt_chamado.py:381-489 | The loop that builds the items yields `PreviewSpec`'s reply: 401 without a session or e-mail, 400 without the temp file, otherwise the store's preview. |
| ChamadoRoutes.ItemsSpec | src/rotas/rt_chamado.py:447-471 | One item per selected row, in order. An item holds the original texts and the error for a missing row, and the resolved texts with no error otherwise. |
| ChamadoRoutes.PreviewOfStore | src/rotas/rt_chamado.py:423-479 | Over a non-empty store the preview succeeds. `total_linhas` counts the rows after the header drop and before the cut, and the items are those of the preview selection. |
| ChamadoRoutes.PreviewPredictsRun | src/rotas/rt_chamado.py:424-471 | Over the same store, quantity and header flag, the preview lists the rows a bulk run from row 1 processes, in the same order. Each item carries the title and description of the ticket the run posts for its row, and no error. |

## Left out

- The ticket endpoint (`requests.post`, `raise_for_status`) is the parameter `net`. The `dados` field of the API result is not modelled.
- The employee lookup and the single-ticket path of `criar_chamado` (src/rotas/rt_chamado.py:236-273) are left out, and so is the OAuth login (src/rotas/rt_login.py). They are network calls. The model only records that a request without a file name takes the single-ticket path (`ChamadoUnico`).
- Tickets.CriarChamadoApi: a 2xx reply whose body is not JSON makes `response.json()` raise, which `requests` reports as a `RequestException`. The model maps it to a `RequestError`, a failure, as the source does, but does not record that the ticket may have been created.
- The INI text format is not modelled. Writing the temp file and reading it back is taken as the identity on the store, so configparser's whitespace stripping and `%` interpolation are not modelled. A value with a lone `%` makes `config.set` raise; this is one way `saveOk` can be false.
- openpyxl is left out. Cells are text, integers or booleans; floats and dates are not modelled. A workbook either loads or is `Unreadable`.
- Column values are assumed to hold no backslash (`PlainRow`, `PlainStore`), because `re.sub` would read it as an escape.
- Case mapping is ASCII only, matching `[A-Z]` and the column letters; Unicode `upper()` is not modelled.
- `QtdChamados` takes the result of `parseInt` as its input; `parseInt` itself is not modelled.
- The temp file is one shared `TempFile` object. Concurrent requests on it are not modelled.
- Logging and the `celulas_processadas` counter are left out.
- Operating-system failures of `config_temp`, `limpar_arquivo_temporario`, and the `read` in `verificar_arquivo_temporario` and `carregar_dados_temp` are not modelled. In the model those operations always succeed.
- Ingestion.Planilha.CriarBaseChamados: with `saveOk` false the model's parser holds every kept row. In the source it holds the rows stored before the exception, because the model does not say where in the loop the failure happens.
- The `isdigit()` filter on section names is not modelled. Sections are numbers in the model, so every section passes it.
- Session handling is reduced to flags: a logged-in user and the session's e-mail.
- The catch-all exception handlers of the routes around the modelled operations are left out, except those for loading the workbook.
- The DOM rendering in chamado.js is left out, beyond the escape, the fallback and the quantity default.
