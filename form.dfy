/**
 * The state of the account form (`FormularioContaState`) and, as pure
 * functions, the state each handler of the view model leaves behind. The
 * view model's methods are proved to end in exactly these states.
 */
module Form {
  import opened Texto
  import opened Dados

  /**
   * The two Android string resources the form reports. Their real values are
   * generated ids; all the form relies on is that they are non-zero and
   * distinct.
   */
  const DESCRICAO_OBRIGATORIA: int := 1
  const DATA_OBRIGATORIA: int := 2

  /** An editable text field and the resource id of its error message (0: none). */
  datatype CampoFormulario = CampoFormulario(valor: string, codigoMensagemErro: int)

  datatype FormularioContaState = FormularioContaState(
    idConta: int,
    conta: Conta,
    carregando: bool,
    erroAoCarregar: bool,
    salvando: bool,
    excluindo: bool,
    mostrarDialogConfirmacao: bool,
    contaPersistidaOuRemovida: bool,
    codigoMensagem: int,
    descricao: CampoFormulario,
    data: CampoFormulario,
    valor: CampoFormulario,
    paga: CampoFormulario,
    tipo: CampoFormulario)

  /** The five editable fields, to speak of the five edit handlers at once. */
  datatype Campo = Descricao | Data | Valor | Paga | Tipo

  /**
   * `state.formularioValido`, whose definition is not part of this model:
   * taken to mean that the description carries no error.
   */
  predicate FormularioValido(s: FormularioContaState) {
    s.descricao.codigoMensagemErro == 0
  }

  /** The description's error code agrees with its text. */
  predicate DescricaoConsistente(s: FormularioContaState) {
    s.descricao.codigoMensagemErro == ValidarDescricao(s.descricao.valor)
  }

  /**
   * `FormularioContaState(idConta = idConta)`: empty fields without errors,
   * every flag off, no message, and the default record.
   */
  function EstadoInicial(idConta: int, contaPadrao: Conta): FormularioContaState {
    var vazio := CampoFormulario("", 0);
    FormularioContaState(idConta, contaPadrao, false, false, false, false, false, false, 0,
      vazio, vazio, vazio, vazio, vazio)
  }

  function CampoDe(s: FormularioContaState, c: Campo): CampoFormulario {
    match c
    case Descricao => s.descricao
    case Data => s.data
    case Valor => s.valor
    case Paga => s.paga
    case Tipo => s.tipo
  }

  /** Two states whose fields carry the same error codes, field by field. */
  lemma MesmosCodigos(a: FormularioContaState, b: FormularioContaState)
    requires a.descricao.codigoMensagemErro == b.descricao.codigoMensagemErro
    requires a.data.codigoMensagemErro == b.data.codigoMensagemErro
    requires a.valor.codigoMensagemErro == b.valor.codigoMensagemErro
    requires a.paga.codigoMensagemErro == b.paga.codigoMensagemErro
    requires a.tipo.codigoMensagemErro == b.tipo.codigoMensagemErro
    ensures forall c :: CampoDe(a, c).codigoMensagemErro == CampoDe(b, c).codigoMensagemErro
  {
  }

  /** `a` and `b` agree on everything but the five fields. */
  predicate SoCamposDiferem(a: FormularioContaState, b: FormularioContaState) {
    a.(descricao := b.descricao, data := b.data, valor := b.valor, paga := b.paga, tipo := b.tipo) == b
  }

  /** `s` with the field `c` replaced by `f`. */
  function ComCampo(s: FormularioContaState, c: Campo, f: CampoFormulario): (r: FormularioContaState)
    ensures CampoDe(r, c) == f
    ensures forall o | o != c :: CampoDe(r, o) == CampoDe(s, o)
    ensures SoCamposDiferem(r, s)
  {
    match c
    case Descricao => s.(descricao := f)
    case Data => s.(data := f)
    case Valor => s.(valor := f)
    case Paga => s.(paga := f)
    case Tipo => s.(tipo := f)
  }

  /** `validarDescricao`: the "description required" error exactly for blank text. */
  function ValidarDescricao(descricao: string): (codigo: int)
    ensures codigo == 0 <==> !IsBlank(descricao)
    ensures codigo != 0 ==> codigo == DESCRICAO_OBRIGATORIA
  {
    if IsBlank(descricao) then DESCRICAO_OBRIGATORIA else 0
  }

  /**
   * The state after `carregarConta` when `findOne` answered `encontrada`;
   * `textoDecimal` is `BigDecimal.toString`.
   */
  function AposCarregar(s: FormularioContaState, encontrada: Option<Conta>, textoDecimal: BigDecimal -> string)
    : (r: FormularioContaState)
    ensures !r.carregando
    ensures r.erroAoCarregar <==> encontrada.None?
    ensures encontrada.None? ==> r == s.(carregando := false, erroAoCarregar := true)
    ensures encontrada.Some? ==>
      && r.conta == encontrada.value
      && r.descricao.valor == encontrada.value.descricao
      && r.data.valor == IsoString(encontrada.value.data)
      && r.valor.valor == textoDecimal(encontrada.value.valor)
      && r.paga.valor == BooleanToString(encontrada.value.paga)
      && r.tipo.valor == Name(encontrada.value.tipo)
    ensures forall c :: CampoDe(r, c).codigoMensagemErro == CampoDe(s, c).codigoMensagemErro
    ensures r.(carregando := s.carregando, erroAoCarregar := s.erroAoCarregar, conta := s.conta,
               descricao := s.descricao, data := s.data, valor := s.valor, paga := s.paga, tipo := s.tipo) == s
  {
    var aCarregar := s.(carregando := true, erroAoCarregar := false);
    var r := match encontrada
      case None => aCarregar.(carregando := false, erroAoCarregar := true)
      case Some(conta) =>
        aCarregar.(
          carregando := false,
          conta := conta,
          descricao := aCarregar.descricao.(valor := conta.descricao),
          data := aCarregar.data.(valor := IsoString(conta.data)),
          valor := aCarregar.valor.(valor := textoDecimal(conta.valor)),
          paga := aCarregar.paga.(valor := BooleanToString(conta.paga)),
          tipo := aCarregar.tipo.(valor := Name(conta.tipo)));
    MesmosCodigos(r, s);
    r
  }

  /**
   * The state after an edit handler (`onDescricaoAlterada`, `onDataAlterada`,
   * `onValorAlterado`, `onStatusPagamentoAlterado`, `onTipoAlterado`) receives
   * `novo` for the field `c`.
   */
  function Editar(s: FormularioContaState, c: Campo, novo: string): (r: FormularioContaState)
    ensures CampoDe(s, c).valor == novo ==> r == s
    ensures CampoDe(r, c).valor == novo
    ensures CampoDe(s, c).valor != novo && c == Descricao ==>
      r.descricao.codigoMensagemErro == ValidarDescricao(novo)
    ensures c != Descricao ==> CampoDe(r, c).codigoMensagemErro == CampoDe(s, c).codigoMensagemErro
    ensures forall o | o != c :: CampoDe(r, o) == CampoDe(s, o)
    ensures SoCamposDiferem(r, s)
  {
    var atual := CampoDe(s, c);
    if atual.valor == novo then s
    else if c == Descricao then ComCampo(s, c, atual.(valor := novo, codigoMensagemErro := ValidarDescricao(novo)))
    else ComCampo(s, c, atual.(valor := novo))
  }

  /** The state `formularioValido()` leaves: the description's error code recomputed. */
  function Revalidado(s: FormularioContaState): (r: FormularioContaState)
    ensures DescricaoConsistente(r)
    ensures FormularioValido(r) <==> !IsBlank(s.descricao.valor)
    ensures r.descricao.valor == s.descricao.valor
    ensures r.(descricao := s.descricao) == s
  {
    s.(descricao := s.descricao.(codigoMensagemErro := ValidarDescricao(s.descricao.valor)))
  }

  /** `salvarConta` gets past both of its guards and reaches the conversions. */
  predicate ChegaAConversao(s: FormularioContaState) {
    !IsBlank(s.descricao.valor) && !IsBlank(s.data.valor)
  }

  /**
   * The conversions in `salvarConta` do not throw: once both guards pass, the
   * date parses with the `dd/MM/yyyy` parser `parseData`, the amount with
   * `BigDecimal(String)` (`parseDecimal`), and the type is a constant's name.
   */
  predicate ConversoesValidas(s: FormularioContaState, parseData: string -> Option<LocalDate>,
                              parseDecimal: string -> Option<BigDecimal>) {
    ChegaAConversao(s) ==>
      parseData(s.data.valor).Some? && parseDecimal(s.valor.valor).Some? && ValueOf(s.tipo.valor).Some?
  }

  /** The record `salvarConta` hands to `salvar`: the loaded record with the form's values. */
  function ContaDoFormulario(s: FormularioContaState, parseData: string -> Option<LocalDate>,
                             parseDecimal: string -> Option<BigDecimal>): (c: Conta)
    requires parseData(s.data.valor).Some? && parseDecimal(s.valor.valor).Some? && ValueOf(s.tipo.valor).Some?
    ensures c.id == s.conta.id
    ensures c.descricao == s.descricao.valor
    ensures parseData(s.data.valor) == Some(c.data)
    ensures parseDecimal(s.valor.valor) == Some(c.valor)
    ensures c.paga <==> s.paga.valor == "true"
    ensures Name(c.tipo) == s.tipo.valor
  {
    s.conta.(
      descricao := s.descricao.valor,
      data := parseData(s.data.valor).value,
      valor := parseDecimal(s.valor.valor).value,
      paga := s.paga.valor == "true",
      tipo := ValueOf(s.tipo.valor).value)
  }

  /** What `salvarConta` leaves: the new state, and the record given to `salvar`, if any. */
  datatype Salvamento = Salvamento(estado: FormularioContaState, gravada: Option<Conta>)

  /** The outcome of `salvarConta` from the state `s`. */
  function ResultadoSalvar(s: FormularioContaState, parseData: string -> Option<LocalDate>,
                  parseDecimal: string -> Option<BigDecimal>): (r: Salvamento)
    requires ConversoesValidas(s, parseData, parseDecimal)
    ensures r.estado.descricao == Revalidado(s).descricao
    ensures r.gravada.Some? <==> ChegaAConversao(s)
    ensures IsBlank(s.descricao.valor) ==> r.estado == Revalidado(s)
    ensures !IsBlank(s.descricao.valor) && IsBlank(s.data.valor) ==>
      && !r.estado.salvando
      && r.estado.codigoMensagem == DATA_OBRIGATORIA
      && r.estado.contaPersistidaOuRemovida == s.contaPersistidaOuRemovida
    ensures ChegaAConversao(s) ==>
      && r.gravada == Some(ContaDoFormulario(s, parseData, parseDecimal))
      && !r.estado.salvando
      && r.estado.contaPersistidaOuRemovida
      && r.estado.codigoMensagem == s.codigoMensagem
    ensures r.estado.(salvando := s.salvando, contaPersistidaOuRemovida := s.contaPersistidaOuRemovida,
                      codigoMensagem := s.codigoMensagem, descricao := s.descricao) == s
  {
    var validado := Revalidado(s);
    if !FormularioValido(validado) then
      Salvamento(validado, None)
    else
      var salvando := validado.(salvando := true);
      if IsBlank(salvando.data.valor) then
        Salvamento(salvando.(salvando := false, codigoMensagem := DATA_OBRIGATORIA), None)
      else
        var conta := ContaDoFormulario(salvando, parseData, parseDecimal);
        Salvamento(salvando.(salvando := false, contaPersistidaOuRemovida := true), Some(conta))
  }

  /** The state after `mostrarDialogConfirmacao` (`mostrar`) or `ocultarDialogConfirmacao` (`!mostrar`). */
  function ComDialogo(s: FormularioContaState, mostrar: bool): (r: FormularioContaState)
    ensures r.mostrarDialogConfirmacao == mostrar
    ensures r.(mostrarDialogConfirmacao := s.mostrarDialogConfirmacao) == s
  {
    s.(mostrarDialogConfirmacao := mostrar)
  }

  /** The state after `removerConta`. */
  function AposRemover(s: FormularioContaState): (r: FormularioContaState)
    ensures !r.excluindo && r.contaPersistidaOuRemovida
    ensures r.(excluindo := s.excluindo, contaPersistidaOuRemovida := s.contaPersistidaOuRemovida) == s
  {
    s.(excluindo := false, contaPersistidaOuRemovida := true)
  }

  /** The state after `onMensagemExibida`. */
  function AposMensagemExibida(s: FormularioContaState): (r: FormularioContaState)
    ensures r.codigoMensagem == 0
    ensures r.(codigoMensagem := s.codigoMensagem) == s
  {
    s.(codigoMensagem := 0)
  }

  /**
   * The id the view model reads from its saved-state argument: the argument as
   * a 32-bit integer, or 0 when it is absent or not an integer.
   */
  function IdDoArgumento(argumento: Option<string>): (id: int)
    ensures INT_MIN <= id <= INT_MAX
    ensures argumento.Some? && ToIntOrNull(argumento.value).Some? ==> id == ToIntOrNull(argumento.value).value
    ensures argumento.None? || ToIntOrNull(argumento.value).None? ==> id == 0
  {
    match argumento
    case None => 0
    case Some(texto) =>
      match ToIntOrNull(texto)
      case None => 0
      case Some(n) => n
  }
}
