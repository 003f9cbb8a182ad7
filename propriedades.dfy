/**
 * Properties of the account form that relate several handlers, or a handler
 * and the text forms of the record's values.
 */
module Propriedades {
  import opened Texto
  import opened Dados
  import opened Form

  /** One user edit: the field and the text it receives. */
  datatype Edicao = Edicao(campo: Campo, texto: string)

  /** The state after the edit handlers receive `es`, in order. */
  function AplicarEdicoes(s: FormularioContaState, es: seq<Edicao>): FormularioContaState
    decreases |es|
  {
    if es == [] then s else AplicarEdicoes(Editar(s, es[0].campo, es[0].texto), es[1..])
  }

  /** The text the field `c` holds after `es`, starting from `atual`: the last one sent to it. */
  function UltimoTexto(es: seq<Edicao>, c: Campo, atual: string): string
    decreases |es|
  {
    if es == [] then atual else UltimoTexto(es[1..], c, if es[0].campo == c then es[0].texto else atual)
  }

  /**
   * Any run of edits leaves every flag, the message, the id and the record
   * alone; each field ends with the last text sent to it; no error code but the
   * description's ever changes; and a description error that agreed with its
   * text still agrees.
   */
  lemma {:induction false} EdicoesSoMudamOsCampos(s: FormularioContaState, es: seq<Edicao>)
    ensures SoCamposDiferem(AplicarEdicoes(s, es), s)
    ensures forall c :: CampoDe(AplicarEdicoes(s, es), c).valor == UltimoTexto(es, c, CampoDe(s, c).valor)
    ensures forall c | c != Descricao ::
      CampoDe(AplicarEdicoes(s, es), c).codigoMensagemErro == CampoDe(s, c).codigoMensagemErro
    ensures DescricaoConsistente(s) ==> DescricaoConsistente(AplicarEdicoes(s, es))
    decreases |es|
  {
    if es != [] {
      var proximo := Editar(s, es[0].campo, es[0].texto);
      EdicoesSoMudamOsCampos(proximo, es[1..]);
      forall c
        ensures CampoDe(proximo, c).valor == (if es[0].campo == c then es[0].texto else CampoDe(s, c).valor)
      {
      }
    }
  }

  /** Sending the same text twice to a field is the same as sending it once. */
  lemma EditarIdempotente(s: FormularioContaState, c: Campo, novo: string)
    ensures Editar(Editar(s, c, novo), c, novo) == Editar(s, c, novo)
  {
  }

  /**
   * After a successful load, the type, paid and description texts read back
   * to the record's values, and so does the amount whenever `BigDecimal(String)`
   * inverts `BigDecimal.toString` on it.
   */
  lemma CarregarDevolveOsValores(s: FormularioContaState, conta: Conta,
    parseDecimal: string -> Option<BigDecimal>, textoDecimal: BigDecimal -> string)
    ensures var r := AposCarregar(s, Some(conta), textoDecimal);
      && r.descricao.valor == conta.descricao
      && ValueOf(r.tipo.valor) == Some(conta.tipo)
      && (r.paga.valor == "true" <==> conta.paga)
      && (parseDecimal(textoDecimal(conta.valor)) == Some(conta.valor) ==> parseDecimal(r.valor.valor) == Some(conta.valor))
  {
  }

  /**
   * Loading a record with a description and then saving it untouched does not
   * get past the date conversion: the date field holds `LocalDate.toString`'s
   * ISO text, which passes the blank-date guard but which no `dd/MM/yyyy`
   * parser accepts, so `salvarConta` would throw there.
   */
  lemma CarregarESalvarFalhaNaData(s: FormularioContaState, conta: Conta, parseData: string -> Option<LocalDate>,
    parseDecimal: string -> Option<BigDecimal>, textoDecimal: BigDecimal -> string)
    requires FollowsDayMonthYear(parseData)
    requires !IsBlank(conta.descricao)
    ensures ChegaAConversao(AposCarregar(s, Some(conta), textoDecimal))
    ensures !ConversoesValidas(AposCarregar(s, Some(conta), textoDecimal), parseData, parseDecimal)
  {
    IsoStringNotDayMonthYear(parseData, conta.data);
  }

  /**
   * Loading a record, picking its own date again in `dd/MM/yyyy` form and
   * saving hands exactly that record back to `salvar`, provided its amount
   * survives `BigDecimal.toString` and `BigDecimal(String)`.
   */
  lemma CarregarEscolherDataESalvarDevolveAConta(s: FormularioContaState, conta: Conta, textoData: string,
    parseData: string -> Option<LocalDate>, parseDecimal: string -> Option<BigDecimal>, textoDecimal: BigDecimal -> string)
    requires FollowsDayMonthYear(parseData)
    requires parseData(textoData) == Some(conta.data)
    requires parseDecimal(textoDecimal(conta.valor)) == Some(conta.valor)
    requires !IsBlank(conta.descricao)
    ensures var editado := Editar(AposCarregar(s, Some(conta), textoDecimal), Data, textoData);
      && ConversoesValidas(editado, parseData, parseDecimal)
      && ResultadoSalvar(editado, parseData, parseDecimal).gravada == Some(conta)
  {
    DigitIsNotBlank(textoData, 0);
    var carregado := AposCarregar(s, Some(conta), textoDecimal);
    var editado := Editar(carregado, Data, textoData);
    assert editado.conta == conta && editado.tipo == carregado.tipo && editado.valor == carregado.valor;
    var gravada := ContaDoFormulario(editado, parseData, parseDecimal);
    assert gravada == conta;
  }

  /**
   * Whatever reaches `salvar` has a non-blank description and came from a
   * non-blank date text, and the form it leaves shows no description error.
   */
  lemma GravadaTemDescricao(s: FormularioContaState, parseData: string -> Option<LocalDate>,
    parseDecimal: string -> Option<BigDecimal>)
    requires ConversoesValidas(s, parseData, parseDecimal)
    ensures var r := ResultadoSalvar(s, parseData, parseDecimal);
      r.gravada.Some? ==>
        && !IsBlank(r.gravada.value.descricao)
        && !IsBlank(s.data.valor)
        && FormularioValido(r.estado)
  {
  }

  /**
   * Of two dialog actions in a row only the last one matters; in particular
   * showing or hiding twice is the same as doing it once.
   */
  lemma DialogoUltimoVale(s: FormularioContaState, primeiro: bool, segundo: bool)
    ensures ComDialogo(ComDialogo(s, primeiro), segundo) == ComDialogo(s, segundo)
    ensures ComDialogo(ComDialogo(s, segundo), segundo) == ComDialogo(s, segundo)
  {
  }

  /** Acknowledging the message twice is the same as acknowledging it once. */
  lemma MensagemExibidaIdempotente(s: FormularioContaState)
    ensures AposMensagemExibida(AposMensagemExibida(s)) == AposMensagemExibida(s)
  {
  }

  /**
   * Removal does not depend on the confirmation dialog: with the dialog hidden
   * it completes all the same, and it leaves the dialog flag as it was.
   */
  lemma RemoverIgnoraODialogo(s: FormularioContaState)
    ensures AposRemover(ComDialogo(s, false)).contaPersistidaOuRemovida
    ensures AposRemover(s).mostrarDialogConfirmacao == s.mostrarDialogConfirmacao
  {
  }

  /** An id written with `Int.toString` is read back as itself. */
  lemma IdDoArgumentoDeIntToString(n: int)
    requires INT_MIN <= n <= INT_MAX
    ensures IdDoArgumento(Some(IntToString(n))) == n
  {
  }
}
