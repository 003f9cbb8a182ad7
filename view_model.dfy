/**
 * `FormularioContaViewModel`: the state holder of the account form. Each
 * handler reassigns the one `state` field step by step, as the Kotlin class
 * does, and is proved to end in the state the matching function of `Form`
 * describes, with exactly the expected calls on the store.
 */
module ViewModel {
  import opened Texto
  import opened Dados
  import opened Datasource
  import opened Form

  class FormularioContaViewModel {
    /** The id read from the saved-state argument. */
    const idConta: int
    /** `ContaDatasource.instance`. */
    const datasource: ContaDatasource
    /** `LocalDate.parse(_, DateTimeFormatter.ofPattern("dd/MM/yyyy"))`; `None` where it throws. */
    const parseData: string -> Option<LocalDate>
    /** `BigDecimal(String)`; `None` where it throws. */
    const parseDecimal: string -> Option<BigDecimal>
    /** `BigDecimal.toString()`. */
    const textoDecimal: BigDecimal -> string

    var state: FormularioContaState

    ghost predicate Valid()
      reads this, datasource
    {
      datasource.Valid() && state.idConta == idConta
    }

    /**
     * `init`: the id is taken from the argument, and the record is loaded
     * right away when the id is positive.
     */
    constructor (argumentoId: Option<string>, contaPadrao: Conta, datasource: ContaDatasource,
                 parseData: string -> Option<LocalDate>, parseDecimal: string -> Option<BigDecimal>,
                 textoDecimal: BigDecimal -> string)
      requires datasource.Valid()
      modifies datasource
      ensures Valid()
      ensures idConta == IdDoArgumento(argumentoId)
      ensures this.datasource == datasource && this.parseData == parseData
      ensures this.parseDecimal == parseDecimal && this.textoDecimal == textoDecimal
      ensures idConta > 0 ==>
        && state == AposCarregar(EstadoInicial(idConta, contaPadrao), Buscar(datasource.contas, idConta), textoDecimal)
        && datasource.chamadas == old(datasource.chamadas) + [Chamada.FindOne(idConta)]
      ensures idConta <= 0 ==> state == EstadoInicial(idConta, contaPadrao) && datasource.chamadas == old(datasource.chamadas)
      ensures datasource.contas == old(datasource.contas) && datasource.proximoId == old(datasource.proximoId)
    {
      this.idConta := IdDoArgumento(argumentoId);
      this.datasource := datasource;
      this.parseData := parseData;
      this.parseDecimal := parseDecimal;
      this.textoDecimal := textoDecimal;
      this.state := EstadoInicial(IdDoArgumento(argumentoId), contaPadrao);
      new;
      if state.idConta > 0 {
        CarregarConta();
      }
    }

    /** `carregarConta`: look the record up and fill the form from it, or flag the failure. */
    method CarregarConta()
      requires Valid()
      modifies this, datasource`chamadas
      ensures Valid()
      ensures state == AposCarregar(old(state), Buscar(datasource.contas, idConta), textoDecimal)
      ensures datasource.chamadas == old(datasource.chamadas) + [Chamada.FindOne(idConta)]
    {
      state := state.(carregando := true, erroAoCarregar := false);
      var conta := datasource.FindOne(state.idConta);
      match conta {
        case None =>
          state := state.(carregando := false, erroAoCarregar := true);
        case Some(c) =>
          state := state.(
            carregando := false,
            conta := c,
            descricao := state.descricao.(valor := c.descricao),
            data := state.data.(valor := IsoString(c.data)),
            valor := state.valor.(valor := textoDecimal(c.valor)),
            paga := state.paga.(valor := BooleanToString(c.paga)),
            tipo := state.tipo.(valor := Name(c.tipo)));
      }
    }

    method OnDescricaoAlterada(novaDescricao: string)
      requires Valid()
      modifies this
      ensures Valid()
      ensures state == Editar(old(state), Descricao, novaDescricao)
    {
      if state.descricao.valor != novaDescricao {
        state := state.(descricao := state.descricao.(
          valor := novaDescricao,
          codigoMensagemErro := ValidarDescricao(novaDescricao)));
      }
    }

    method OnDataAlterada(novaData: string)
      requires Valid()
      modifies this
      ensures Valid()
      ensures state == Editar(old(state), Data, novaData)
    {
      if state.data.valor != novaData {
        state := state.(data := state.data.(valor := novaData));
      }
    }

    method OnValorAlterado(novoValor: string)
      requires Valid()
      modifies this
      ensures Valid()
      ensures state == Editar(old(state), Valor, novoValor)
    {
      if state.valor.valor != novoValor {
        state := state.(valor := state.valor.(valor := novoValor));
      }
    }

    method OnStatusPagamentoAlterado(novoStatusPagamento: string)
      requires Valid()
      modifies this
      ensures Valid()
      ensures state == Editar(old(state), Paga, novoStatusPagamento)
    {
      if state.paga.valor != novoStatusPagamento {
        state := state.(paga := state.paga.(valor := novoStatusPagamento));
      }
    }

    method OnTipoAlterado(novoTipo: string)
      requires Valid()
      modifies this
      ensures Valid()
      ensures state == Editar(old(state), Tipo, novoTipo)
    {
      if state.tipo.valor != novoTipo {
        state := state.(tipo := state.tipo.(valor := novoTipo));
      }
    }

    /** `formularioValido()`: recompute the description's error code, then read the verdict. */
    method FormularioValido() returns (valido: bool)
      requires Valid()
      modifies this
      ensures Valid()
      ensures state == Revalidado(old(state))
      ensures valido <==> !IsBlank(old(state).descricao.valor)
    {
      state := state.(descricao := state.descricao.(codigoMensagemErro := ValidarDescricao(state.descricao.valor)));
      valido := Form.FormularioValido(state);
    }

    /**
     * `salvarConta`: revalidate; stop if the form is invalid; report a blank
     * date; otherwise build the record and hand it to `salvar`.
     */
    method SalvarConta()
      requires Valid()
      requires ConversoesValidas(state, parseData, parseDecimal)
      modifies this, datasource
      ensures Valid()
      ensures state == ResultadoSalvar(old(state), parseData, parseDecimal).estado
      ensures ResultadoSalvar(old(state), parseData, parseDecimal).gravada.None? ==> unchanged(datasource)
      ensures ResultadoSalvar(old(state), parseData, parseDecimal).gravada.Some? ==>
        var conta := ResultadoSalvar(old(state), parseData, parseDecimal).gravada.value;
        && datasource.chamadas == old(datasource.chamadas) + [Chamada.Salvar(conta)]
        && (datasource.contas, datasource.proximoId) == AposSalvar(old(datasource.contas), old(datasource.proximoId), conta)
    {
      var valido := FormularioValido();
      if valido {
        state := state.(salvando := true);
        if IsBlank(state.data.valor) {
          state := state.(salvando := false, codigoMensagem := DATA_OBRIGATORIA);
          return;
        }
        var conta := state.conta.(
          descricao := state.descricao.valor,
          data := parseData(state.data.valor).value,
          valor := parseDecimal(state.valor.valor).value,
          paga := state.paga.valor == "true",
          tipo := ValueOf(state.tipo.valor).value);
        datasource.Salvar(conta);
        state := state.(salvando := false, contaPersistidaOuRemovida := true);
      }
    }

    method MostrarDialogConfirmacao()
      requires Valid()
      modifies this
      ensures Valid()
      ensures state == ComDialogo(old(state), true)
    {
      state := state.(mostrarDialogConfirmacao := true);
    }

    method OcultarDialogConfirmacao()
      requires Valid()
      modifies this
      ensures Valid()
      ensures state == ComDialogo(old(state), false)
    {
      state := state.(mostrarDialogConfirmacao := false);
    }

    /** `removerConta`: hand the loaded record to `remover`; the dialog flag is not consulted. */
    method RemoverConta()
      requires Valid()
      modifies this, datasource
      ensures Valid()
      ensures state == AposRemover(old(state))
      ensures datasource.chamadas == old(datasource.chamadas) + [Chamada.Remover(old(state).conta)]
      ensures datasource.contas == old(datasource.contas) - {old(state).conta.id}
      ensures datasource.proximoId == old(datasource.proximoId)
    {
      state := state.(excluindo := true);
      datasource.Remover(state.conta);
      state := state.(excluindo := false, contaPersistidaOuRemovida := true);
    }

    method OnMensagemExibida()
      requires Valid()
      modifies this
      ensures Valid()
      ensures state == AposMensagemExibida(old(state))
    {
      state := state.(codigoMensagem := 0);
    }
  }
}
