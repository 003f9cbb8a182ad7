# Account form of GerenciarContas, in Dafny

This project models `FormularioContaViewModel`, the state holder behind the
screen that creates, edits and deletes one account (`Conta`: a bill or an
income entry with description, date, amount, paid flag and type). The view
model keeps a single `state` value (`FormularioContaState`): five editable
text fields, each with an error code, the record being edited, and the flags
`carregando`, `erroAoCarregar`, `salvando`, `excluindo`,
`mostrarDialogConfirmacao`, `contaPersistidaOuRemovida` and the message code
`codigoMensagem`. Every handler replaces that value by a modified copy.

Modules:

- `Texto`: the Kotlin and Java library behaviour the form relies on:
  `isBlank` (with the JVM's notion of white space), `Int.toString` and
  `toIntOrNull`, with the proof that `toIntOrNull` inverts `toString` on
  32-bit integers.
- `Dados`: the record, `TipoContaEnum` with `name` and `valueOf`,
  `LocalDate` with its `toString` (the ISO form `yyyy-MM-dd`), and
  `BigDecimal` as unscaled value and scale.
- `Datasource`: `ContaDatasource.instance` as a store: a map from id to
  record and a ghost log of the calls made on it (`findOne`, `salvar`,
  `remover`).
- `Form`: the state, and one pure function per handler giving the state the
  handler leaves (`AposCarregar`, `Editar`, `Revalidado`, `ResultadoSalvar`,
  `ComDialogo`, `AposRemover`, `AposMensagemExibida`) with contracts saying
  what changes and what does not.
- `ViewModel`: the class `FormularioContaViewModel`, whose methods update
  `state` step by step as the Kotlin code does and are proved to end in the
  state the `Form` functions give, with exactly the expected store calls.
- `Propriedades`: properties across handlers: runs of edits, the load/save
  cycle, idempotence of the dialog handlers.

Date parsing with the pattern `dd/MM/yyyy`, `BigDecimal(String)` and
`BigDecimal.toString` are library calls; the view model receives them as
function values (`parseData`, `parseDecimal`, `textoDecimal`), a parser
answering `None` where the library throws. The only thing assumed of the date
parser is what the pattern forces: two digits, '/', two digits, '/'
(`FollowsDayMonthYear`).

Loading stores the record's date as `LocalDate.toString()`, the ISO form,
while saving parses the date field with `dd/MM/yyyy`.
`CarregarESalvarFalhaNaData` proves that, for every parser of that pattern,
saving a freshly loaded record whose description is not blank, without
re-picking its date, passes both guards and fails at the date conversion,
where `salvarConta` would throw. (With a blank description the save stops at
the first guard and never reaches the conversion.)
`CarregarEscolherDataESalvarDevolveAConta` proves the other side: when the
date text is replaced by one the parser reads as the record's own date, the
description is not blank, and the amount survives `BigDecimal.toString`
followed by `BigDecimal(String)`, the save hands the very same record to
`salvar`. In the app this second path is not reached through the screen: the
date field of `FormularioContaScreen.kt` (lines 326-330) parses the same ISO
text with `dd/MM/yyyy` while drawing the form, so a loaded record already
fails there; the re-pick path describes the view model called on its own.

## Model

| member | source | states |
|---|---|---|
| `Form.IdDoArgumento` | app/src/main/java/br/edu/utfpr/trabalhofinal/ui/conta/form/FormularioContaViewModel.kt:18-20 | the id is the argument read as a 32-bit integer when it is one, and 0 when the argument is absent or not an integer |
| `Propriedades.IdDoArgumentoDeIntToString` | app/src/main/java/br/edu/utfpr/trabalhofinal/ui/conta/form/FormularioContaViewModel.kt:18-20 | an id written as decimal text is read back as itself |
| `Texto.ToIntOrNull` | app/src/main/java/br/edu/utfpr/trabalhofinal/ui/conta/form/FormularioContaViewModel.kt:20 | for text starting with a digit the result is the digits' value exactly when the text is all digits and the value fits 32 bits; after a leading '+' or '-' followed by at least one character the same holds of the rest, negated for '-' and down to -2^31; any other text (empty, a lone sign, another first character) gives nothing |
| `Texto.ToIntOrNullOfIntToString` | app/src/main/java/br/edu/utfpr/trabalhofinal/ui/conta/form/FormularioContaViewModel.kt:20 | `toIntOrNull` inverts `Int.toString` on every 32-bit integer |
| `ViewModel.FormularioContaViewModel.constructor` | app/src/main/java/br/edu/utfpr/trabalhofinal/ui/conta/form/FormularioContaViewModel.kt:15-27 | the id comes from the argument; the record is looked up (one `findOne` call) exactly when the id is positive, otherwise the state is the initial one and the store is untouched |
| `Form.AposCarregar` | app/src/main/java/br/edu/utfpr/trabalhofinal/ui/conta/form/FormularioContaViewModel.kt:28-49 | loading ends with `carregando` off; on a miss only `erroAoCarregar` is set and fields and record stay; on a hit the record is taken and each field's text is its value (ISO date, `true`/`false`, the type's name), error codes and every other flag unchanged |
| `ViewModel.FormularioContaViewModel.CarregarConta` | app/src/main/java/br/edu/utfpr/trabalhofinal/ui/conta/form/FormularioContaViewModel.kt:28-50 | ends in the `AposCarregar` state for what the store holds under the id, after exactly one `findOne` call |
| `Propriedades.CarregarDevolveOsValores` | app/src/main/java/br/edu/utfpr/trabalhofinal/ui/conta/form/FormularioContaViewModel.kt:43-47 | after a load the description, type and paid texts convert back to the record's values, and so does the amount whenever the decimal text form round-trips |
| `Form.ValidarDescricao` | app/src/main/java/br/edu/utfpr/trabalhofinal/ui/conta/form/FormularioContaViewModel.kt:61-65 | the error code is 0 exactly for non-blank text, and otherwise the "description required" resource |
| `Form.Editar` | app/src/main/java/br/edu/utfpr/trabalhofinal/ui/conta/form/FormularioContaViewModel.kt:51-101 | an edit with the current text changes nothing; otherwise only that field changes: its text becomes the new one, the description's error is recomputed from it, other fields' error codes never change, and flags, record and message stay |
| `ViewModel.FormularioContaViewModel.OnDescricaoAlterada` | app/src/main/java/br/edu/utfpr/trabalhofinal/ui/conta/form/FormularioContaViewModel.kt:51-60 | ends in the `Editar` state for the description |
| `ViewModel.FormularioContaViewModel.OnDataAlterada` | app/src/main/java/br/edu/utfpr/trabalhofinal/ui/conta/form/FormularioContaViewModel.kt:66-74 | ends in the `Editar` state for the date |
| `ViewModel.FormularioContaViewModel.OnValorAlterado` | app/src/main/java/br/edu/utfpr/trabalhofinal/ui/conta/form/FormularioContaViewModel.kt:75-83 | ends in the `Editar` state for the amount |
| `ViewModel.FormularioContaViewModel.OnStatusPagamentoAlterado` | app/src/main/java/br/edu/utfpr/trabalhofinal/ui/conta/form/FormularioContaViewModel.kt:84-92 | ends in the `Editar` state for the paid flag |
| `ViewModel.FormularioContaViewModel.OnTipoAlterado` | app/src/main/java/br/edu/utfpr/trabalhofinal/ui/conta/form/FormularioContaViewModel.kt:93-101 | ends in the `Editar` state for the type |
| `Propriedades.EdicoesSoMudamOsCampos` | app/src/main/java/br/edu/utfpr/trabalhofinal/ui/conta/form/FormularioContaViewModel.kt:51-101 | any run of edits changes only the five fields, leaves each with the last text sent to it, never touches an error code but the description's, and keeps a consistent description error consistent |
| `Propriedades.EditarIdempotente` | app/src/main/java/br/edu/utfpr/trabalhofinal/ui/conta/form/FormularioContaViewModel.kt:51-101 | sending the same text twice equals sending it once |
| `Form.Revalidado` | app/src/main/java/br/edu/utfpr/trabalhofinal/ui/conta/form/FormularioContaViewModel.kt:136-143 | only the description's error code changes, it then agrees with the text, and the form is valid exactly when the description is not blank |
| `ViewModel.FormularioContaViewModel.FormularioValido` | app/src/main/java/br/edu/utfpr/trabalhofinal/ui/conta/form/FormularioContaViewModel.kt:136-143 | ends in the `Revalidado` state and answers whether the description is non-blank |
| `Form.ContaDoFormulario` | app/src/main/java/br/edu/utfpr/trabalhofinal/ui/conta/form/FormularioContaViewModel.kt:119-127 | the saved record keeps the loaded id, takes the description text, the parsed date and amount, paid exactly when the text is "true", and the type whose name is the text |
| `Form.ResultadoSalvar` | app/src/main/java/br/edu/utfpr/trabalhofinal/ui/conta/form/FormularioContaViewModel.kt:102-134 | the description error is always recomputed; a record reaches `salvar` exactly when description and date are both non-blank; blank description: nothing else changes; blank date: `salvando` off and the "date required" message; success: the form's record, `salvando` off, `contaPersistidaOuRemovida` on; nothing else changes |
| `ViewModel.FormularioContaViewModel.SalvarConta` | app/src/main/java/br/edu/utfpr/trabalhofinal/ui/conta/form/FormularioContaViewModel.kt:102-135 | ends in the `ResultadoSalvar` state; the store is untouched unless a record is produced, and then `salvar` is called exactly once, with that record |
| `Propriedades.GravadaTemDescricao` | app/src/main/java/br/edu/utfpr/trabalhofinal/ui/conta/form/FormularioContaViewModel.kt:102-129 | a saved record always has a non-blank description and came from a non-blank date text, and the form then shows no description error |
| `Dados.ValueOf` | app/src/main/java/br/edu/utfpr/trabalhofinal/ui/conta/form/FormularioContaViewModel.kt:126 | `valueOf` yields a type exactly when the text is that type's name |
| `Texto.IntToString` | app/src/main/java/br/edu/utfpr/trabalhofinal/ui/conta/form/FormularioContaViewModel.kt:44 | `Integer.toString`: a minus sign exactly for a negative number, then digits whose value is the magnitude (the id argument's text form and the pieces of the ISO date) |
| `Texto.IsWhitespace` | app/src/main/java/br/edu/utfpr/trabalhofinal/ui/conta/form/FormularioContaViewModel.kt:61 | the JVM white-space set used by `isBlank`: `Character.isWhitespace` or `Character.isSpaceChar` |
| `Texto.IsBlank` | app/src/main/java/br/edu/utfpr/trabalhofinal/ui/conta/form/FormularioContaViewModel.kt:61 | `isBlank`: the text is empty or all white space |
| `Texto.DigitIsNotBlank` | app/src/main/java/br/edu/utfpr/trabalhofinal/ui/conta/form/FormularioContaViewModel.kt:109 | a text holding a digit passes the blank-date guard |
| `Dados.IsoYear` | app/src/main/java/br/edu/utfpr/trabalhofinal/ui/conta/form/FormularioContaViewModel.kt:44 | the year in `LocalDate.toString`: years 0..9999 as exactly four zero-padded digits of that value; negative years as '-' and at least four digits (exactly four down to -9999); years above 9999 as '+' and their digits |
| `Dados.IsoMonthDay` | app/src/main/java/br/edu/utfpr/trabalhofinal/ui/conta/form/FormularioContaViewModel.kt:44 | the `-MM-dd` tail: '-', the month in two digits, '-', the day in two digits |
| `Dados.IsoString` | app/src/main/java/br/edu/utfpr/trabalhofinal/ui/conta/form/FormularioContaViewModel.kt:44 | `LocalDate.toString`: its third character is always a digit, and for years 0..9999 it is the ten characters `yyyy-MM-dd` whose fields read back to the date's year, month and day |
| `Dados.IsoStringNotDayMonthYear` | app/src/main/java/br/edu/utfpr/trabalhofinal/ui/conta/form/FormularioContaViewModel.kt:44 | the ISO text of any date is not blank and no `dd/MM/yyyy` parser accepts it |
| `Propriedades.CarregarESalvarFalhaNaData` | app/src/main/java/br/edu/utfpr/trabalhofinal/ui/conta/form/FormularioContaViewModel.kt:120-123 | right after loading a record with a description, saving passes both guards but the date conversion fails for every `dd/MM/yyyy` parser |
| `Propriedades.CarregarEscolherDataESalvarDevolveAConta` | app/src/main/java/br/edu/utfpr/trabalhofinal/ui/conta/form/FormularioContaViewModel.kt:121-129 | load, re-pick the record's own date, save: the record handed to `salvar` is the loaded one |
| `Form.ComDialogo` | app/src/main/java/br/edu/utfpr/trabalhofinal/ui/conta/form/FormularioContaViewModel.kt:144-149 | only the dialog flag changes, to the requested value |
| `ViewModel.FormularioContaViewModel.MostrarDialogConfirmacao` | app/src/main/java/br/edu/utfpr/trabalhofinal/ui/conta/form/FormularioContaViewModel.kt:144-146 | ends in the `ComDialogo` state with the dialog shown |
| `ViewModel.FormularioContaViewModel.OcultarDialogConfirmacao` | app/src/main/java/br/edu/utfpr/trabalhofinal/ui/conta/form/FormularioContaViewModel.kt:147-149 | ends in the `ComDialogo` state with the dialog hidden |
| `Propriedades.DialogoUltimoVale` | app/src/main/java/br/edu/utfpr/trabalhofinal/ui/conta/form/FormularioContaViewModel.kt:144-149 | of two dialog actions only the last one matters, so showing or hiding twice equals doing it once |
| `Form.AposRemover` | app/src/main/java/br/edu/utfpr/trabalhofinal/ui/conta/form/FormularioContaViewModel.kt:150-159 | removal ends with `excluindo` off and `contaPersistidaOuRemovida` on, nothing else changed |
| `ViewModel.FormularioContaViewModel.RemoverConta` | app/src/main/java/br/edu/utfpr/trabalhofinal/ui/conta/form/FormularioContaViewModel.kt:150-159 | ends in the `AposRemover` state after exactly one `remover` call with the current record |
| `Propriedades.RemoverIgnoraODialogo` | app/src/main/java/br/edu/utfpr/trabalhofinal/ui/conta/form/FormularioContaViewModel.kt:150-159 | removal completes with the dialog hidden and does not touch the dialog flag |
| `Form.AposMensagemExibida` | app/src/main/java/br/edu/utfpr/trabalhofinal/ui/conta/form/FormularioContaViewModel.kt:160-162 | only the message code changes, to 0 |
| `ViewModel.FormularioContaViewModel.OnMensagemExibida` | app/src/main/java/br/edu/utfpr/trabalhofinal/ui/conta/form/FormularioContaViewModel.kt:160-162 | ends in the `AposMensagemExibida` state |
| `Propriedades.MensagemExibidaIdempotente` | app/src/main/java/br/edu/utfpr/trabalhofinal/ui/conta/form/FormularioContaViewModel.kt:160-162 | acknowledging the message twice equals acknowledging it once |
| `Datasource.ContaDatasource.FindOne` | app/src/main/java/br/edu/utfpr/trabalhofinal/ui/conta/form/FormularioContaViewModel.kt:33 | answers the record stored under the id, whose id is that id, or nothing; logs the call |
| `Datasource.ContaDatasource.Salvar` | app/src/main/java/br/edu/utfpr/trabalhofinal/ui/conta/form/FormularioContaViewModel.kt:129 | upserts the record and logs the call |
| `Datasource.ContaDatasource.Remover` | app/src/main/java/br/edu/utfpr/trabalhofinal/ui/conta/form/FormularioContaViewModel.kt:154 | drops the record's id from the store and logs the call |

## Left out

- The Compose screens (`FormularioContaScreen.kt`, `ListaContasScreen.kt`): layout, theming, snackbars, navigation effects and the date picker's local counters.
- The list screen's balance and projection (`calcularSaldo`, `calcularProjecao`) and `formatar`: their definitions are not part of this model.
- `ContaDatasource`'s persistence: the store is a map; how it assigns ids to new records (here: the next free id) is a choice of the model, not of the app.
- `LocalDate.parse` with `dd/MM/yyyy`, `BigDecimal(String)` and `BigDecimal.toString`: library behaviour, taken as function parameters; only the pattern's two-digit/'/' shape is assumed of the date parser.
- `ViewModel.FormularioContaViewModel.SalvarConta`: requires that, once both guards pass, the date, amount and type conversions succeed; where the app throws (and crashes) the model has no behaviour.
- `state.formularioValido` is not part of this model; it is taken to be "the description has no error code".
- The defaults of `FormularioContaState` are not part of this model; they are taken to be empty fields with no error, flags off and message 0, with the default record `Conta()` passed in, since its own defaults are not shown either.
- `contaNova`, read by the screen, is a derived property of the state that the view model never uses.
- The intermediate states (`carregando`, `salvando`, `excluindo` set to true before the store call) are assigned by the methods, but no contract speaks of them: nothing observes them between two statements in this single-threaded model, while the app's UI may.
- `mutableStateOf` observation and the `ViewModel`/`SavedStateHandle` lifecycle: framework plumbing; the saved-state argument is a constructor parameter.
- The `println` on a blank date: console output.
- `Texto.ToIntOrNull`: accepts ASCII digits only, while `toIntOrNull` on the JVM also accepts other Unicode decimal digits.
- The resource ids `descricao_obrigatoria` and `data_obrigatoria` are generated values; the model uses 1 and 2 and relies only on their being non-zero and distinct.
- `removerConta` does not consult `mostrarDialogConfirmacao`; confirmation before deletion comes only from the screen calling it from the dialog's confirm button, which is not modelled.
