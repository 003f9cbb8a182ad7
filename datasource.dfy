/**
 * `ContaDatasource.instance`, the store the form reads from and writes to.
 * Its implementation is not part of this model: it stands here as a map from
 * id to record, with a ghost log of every call the form makes on it.
 */
module Datasource {
  import opened Texto
  import opened Dados

  /** One call on the store, as it appears in the log. */
  datatype Chamada = FindOne(id: int) | Salvar(conta: Conta) | Remover(conta: Conta)

  /** What `findOne(id)` answers for the stored records `contas`. */
  function Buscar(contas: map<int, Conta>, id: int): (r: Option<Conta>)
    ensures r.Some? <==> id in contas
    ensures r.Some? ==> r.value == contas[id]
  {
    if id in contas then Some(contas[id]) else None
  }

  /**
   * The stored records and the next free id after `salvar(conta)`: an upsert
   * under `conta.id`, or, for a record not yet stored (id 0 or less), an
   * insertion under the next free id.
   */
  function AposSalvar(contas: map<int, Conta>, proximoId: int, conta: Conta): (r: (map<int, Conta>, int))
    ensures conta.id > 0 ==> r.0 == contas[conta.id := conta]
    ensures conta.id <= 0 ==> r.0 == contas[proximoId := conta.(id := proximoId)]
    ensures r.1 >= proximoId && (conta.id > 0 ==> r.1 > conta.id)
  {
    if conta.id > 0 then
      (contas[conta.id := conta], if conta.id < proximoId then proximoId else conta.id + 1)
    else
      (contas[proximoId := conta.(id := proximoId)], proximoId + 1)
  }

  class ContaDatasource {
    var contas: map<int, Conta>
    var proximoId: int
    ghost var chamadas: seq<Chamada>

    /** Every record is stored under its own id, and every id is below the next free one. */
    ghost predicate Valid()
      reads this
    {
      0 < proximoId && forall id | id in contas :: 0 < id < proximoId && contas[id].id == id
    }

    constructor ()
      ensures Valid() && contas == map[] && chamadas == []
    {
      contas := map[];
      proximoId := 1;
      chamadas := [];
    }

    method FindOne(id: int) returns (conta: Option<Conta>)
      requires Valid()
      modifies this`chamadas
      ensures conta == Buscar(contas, id)
      ensures conta.Some? ==> conta.value.id == id
      ensures chamadas == old(chamadas) + [Chamada.FindOne(id)]
    {
      conta := Buscar(contas, id);
      chamadas := chamadas + [Chamada.FindOne(id)];
    }

    method Salvar(conta: Conta)
      requires Valid()
      modifies this
      ensures Valid()
      ensures (contas, proximoId) == AposSalvar(old(contas), old(proximoId), conta)
      ensures chamadas == old(chamadas) + [Chamada.Salvar(conta)]
    {
      var novo := AposSalvar(contas, proximoId, conta);
      contas, proximoId := novo.0, novo.1;
      chamadas := chamadas + [Chamada.Salvar(conta)];
    }

    method Remover(conta: Conta)
      requires Valid()
      modifies this
      ensures Valid()
      ensures contas == old(contas) - {conta.id} && proximoId == old(proximoId)
      ensures chamadas == old(chamadas) + [Chamada.Remover(conta)]
    {
      contas := contas - {conta.id};
      chamadas := chamadas + [Chamada.Remover(conta)];
    }
  }
}
