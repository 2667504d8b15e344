/**
 * The Clientes page: client records, the rules of the client form, the
 * project-link checkboxes, and the page state (`clientes`, `open`,
 * `editingId`) that the create, edit and delete handlers update.
 */
module Clientes {
  import opened Wrappers
  import opened Seqs

  /** A contact person of a client (`contactSchema`). */
  datatype Contato = Contato(nome: string, email: string, telefone: Option<string>)

  /** The values of the client form (`clientSchema`). */
  datatype ClienteForm = ClienteForm(
    razaoNome: string,
    documento: string,
    segmento: string,
    tamanho: string,
    numeroFuncionarios: int,
    contatos: seq<Contato>,
    cidade: string,
    uf: string,
    observacoes: Option<string>,
    documentos: Option<seq<string>>,
    projetos: Option<seq<string>>)

  /** A stored client: the form's values under a numeric id. */
  datatype Cliente = Cliente(id: int, dados: ClienteForm)

  /**
   * The places where the client form can be refused; the contact entries are
   * addressed by their position in `contatos`.
   */
  datatype CampoCliente =
    | RazaoNome
    | Documento
    | Segmento
    | Tamanho
    | NumeroFuncionarios
    | Contatos
    | Cidade
    | Uf
    | ContatoNome(i: nat)
    | ContatoEmail(i: nat)

  /** The fields checked once per form, in schema order. */
  const CamposSimples: seq<CampoCliente> :=
    [RazaoNome, Documento, Segmento, Tamanho, NumeroFuncionarios, Contatos, Cidade, Uf]

  /**
   * The rule the schema applies at one place; `emailValido` stands for the
   * e-mail format check of `z.string().email`.
   */
  predicate CampoClienteValido(f: ClienteForm, c: CampoCliente, emailValido: string -> bool)
  {
    match c
    case RazaoNome => f.razaoNome != ""
    case Documento => f.documento != ""
    case Segmento => f.segmento != ""
    case Tamanho => f.tamanho != ""
    case NumeroFuncionarios => f.numeroFuncionarios >= 0
    case Contatos => |f.contatos| >= 1
    case Cidade => f.cidade != ""
    case Uf => f.uf != ""
    case ContatoNome(i) => i >= |f.contatos| || f.contatos[i].nome != ""
    case ContatoEmail(i) => i >= |f.contatos| || emailValido(f.contatos[i].email)
  }

  /**
   * `clientSchema`: every required text field is non-empty, the head count is
   * not negative, there is at least one contact, and every contact has a
   * name and a well-formed e-mail.
   */
  predicate ClienteFormValido(f: ClienteForm, emailValido: string -> bool)
  {
    && f.razaoNome != "" && f.documento != "" && f.segmento != "" && f.tamanho != ""
    && f.numeroFuncionarios >= 0
    && |f.contatos| >= 1
    && (forall k :: 0 <= k < |f.contatos| ==>
          f.contatos[k].nome != "" && emailValido(f.contatos[k].email))
    && f.cidade != "" && f.uf != ""
  }

  /** The refused places among the contacts from position `desde` on. */
  function ErrosContatos(cs: seq<Contato>, desde: nat, emailValido: string -> bool): (erros: seq<CampoCliente>)
    requires desde <= |cs|
    ensures forall c :: c in erros ==> c.ContatoNome? || c.ContatoEmail?
    ensures forall k: nat :: ContatoNome(k) in erros <==> desde <= k < |cs| && cs[k].nome == ""
    ensures forall k: nat :: ContatoEmail(k) in erros <==> desde <= k < |cs| && !emailValido(cs[k].email)
    decreases |cs| - desde
  {
    if desde == |cs| then []
    else
      (if cs[desde].nome == "" then [ContatoNome(desde)] else []) +
      (if emailValido(cs[desde].email) then [] else [ContatoEmail(desde)]) +
      ErrosContatos(cs, desde + 1, emailValido)
  }

  /** Every place the client form is refused at, the single fields first. */
  function ErrosCliente(f: ClienteForm, emailValido: string -> bool): (erros: seq<CampoCliente>)
    ensures forall c :: c in erros <==> !CampoClienteValido(f, c, emailValido)
  {
    var simples := Filter(CamposSimples, (c: CampoCliente) => !CampoClienteValido(f, c, emailValido));
    var contatos := ErrosContatos(f.contatos, 0, emailValido);
    ErrosClienteMembros(f, emailValido, simples, contatos);
    simples + contatos
  }

  lemma CamposSimplesCompletos(c: CampoCliente)
    requires !c.ContatoNome? && !c.ContatoEmail?
    ensures c in CamposSimples
  {
    match c
    case RazaoNome => assert CamposSimples[0] == c;
    case Documento => assert CamposSimples[1] == c;
    case Segmento => assert CamposSimples[2] == c;
    case Tamanho => assert CamposSimples[3] == c;
    case NumeroFuncionarios => assert CamposSimples[4] == c;
    case Contatos => assert CamposSimples[5] == c;
    case Cidade => assert CamposSimples[6] == c;
    case Uf => assert CamposSimples[7] == c;
  }

  /** The refusals of the single fields and of the contacts together cover every place. */
  lemma ErrosClienteMembros(f: ClienteForm, emailValido: string -> bool,
                            simples: seq<CampoCliente>, contatos: seq<CampoCliente>)
    requires forall c :: c in simples <==> c in CamposSimples && !CampoClienteValido(f, c, emailValido)
    requires forall c :: c in contatos ==> c.ContatoNome? || c.ContatoEmail?
    requires forall k: nat :: ContatoNome(k) in contatos <==> k < |f.contatos| && f.contatos[k].nome == ""
    requires forall k: nat :: ContatoEmail(k) in contatos <==>
               k < |f.contatos| && !emailValido(f.contatos[k].email)
    ensures forall c :: c in simples + contatos <==> !CampoClienteValido(f, c, emailValido)
  {
    forall c ensures c in simples + contatos <==> !CampoClienteValido(f, c, emailValido) {
      if c.ContatoNome? || c.ContatoEmail? {
        assert c !in CamposSimples;
      } else {
        CamposSimplesCompletos(c);
      }
    }
  }

  /** A form refused nowhere passes `clientSchema`. */
  lemma SemErrosEntaoValido(f: ClienteForm, emailValido: string -> bool)
    requires ErrosCliente(f, emailValido) == []
    ensures ClienteFormValido(f, emailValido)
  {
    assert CampoClienteValido(f, RazaoNome, emailValido) && CampoClienteValido(f, Documento, emailValido);
    assert CampoClienteValido(f, Segmento, emailValido) && CampoClienteValido(f, Tamanho, emailValido);
    assert CampoClienteValido(f, NumeroFuncionarios, emailValido);
    assert CampoClienteValido(f, Contatos, emailValido);
    assert CampoClienteValido(f, Cidade, emailValido) && CampoClienteValido(f, Uf, emailValido);
    forall k | 0 <= k < |f.contatos|
      ensures f.contatos[k].nome != "" && emailValido(f.contatos[k].email)
    {
      assert CampoClienteValido(f, ContatoNome(k), emailValido);
      assert CampoClienteValido(f, ContatoEmail(k), emailValido);
    }
  }

  /** A form that passes `clientSchema` meets the rule of every place. */
  lemma ValidoEmCadaCampo(f: ClienteForm, emailValido: string -> bool, c: CampoCliente)
    requires ClienteFormValido(f, emailValido)
    ensures CampoClienteValido(f, c, emailValido)
  {
    if c.ContatoNome? || c.ContatoEmail? {
      if c.i < |f.contatos| {
        assert f.contatos[c.i].nome != "" && emailValido(f.contatos[c.i].email);
      }
    }
  }

  /** A form that passes `clientSchema` is refused nowhere. */
  lemma ValidoEntaoSemErros(f: ClienteForm, emailValido: string -> bool)
    requires ClienteFormValido(f, emailValido)
    ensures ErrosCliente(f, emailValido) == []
  {
    var erros := ErrosCliente(f, emailValido);
    if erros != [] {
      ValidoEmCadaCampo(f, emailValido, erros[0]);
      assert false;
    }
  }

  /** The form is refused nowhere exactly when `clientSchema` accepts it. */
  lemma SemErrosSeValido(f: ClienteForm, emailValido: string -> bool)
    ensures ErrosCliente(f, emailValido) == [] <==> ClienteFormValido(f, emailValido)
  {
    if ErrosCliente(f, emailValido) == [] {
      SemErrosEntaoValido(f, emailValido);
    }
    if ClienteFormValido(f, emailValido) {
      ValidoEntaoSemErros(f, emailValido);
    }
  }

  /**
   * `prev.map((c) => (c.id === id ? { ...data, id } : c))`: every client with
   * that id takes the new data and keeps the id; the others stay as they are.
   */
  function SubstituirCliente(cs: seq<Cliente>, id: int, dados: ClienteForm): (r: seq<Cliente>)
    ensures |r| == |cs|
    ensures forall i :: 0 <= i < |r| ==> r[i] == if cs[i].id == id then Cliente(id, dados) else cs[i]
  {
    Map(cs, (c: Cliente) => if c.id == id then Cliente(id, dados) else c)
  }

  /**
   * `prev.filter((c) => c.id !== id)`: no client with that id remains; the
   * others remain, as often as before and in their original order.
   */
  function RemoverCliente(cs: seq<Cliente>, id: int): (r: seq<Cliente>)
    ensures forall c :: c in r <==> c in cs && c.id != id
    ensures forall c: Cliente :: c.id != id ==> multiset(r)[c] == multiset(cs)[c]
    ensures IsSubsequence(r, cs)
  {
    Filter(cs, (c: Cliente) => c.id != id)
  }

  /** The key clients are stored under. */
  function IdCliente(c: Cliente): int
  {
    c.id
  }

  /** The ids of a list of clients, in order. */
  function Ids(cs: seq<Cliente>): (ids: seq<int>)
    ensures |ids| == |cs|
    ensures forall i :: 0 <= i < |cs| ==> ids[i] == cs[i].id
  {
    Map(cs, IdCliente)
  }

  /** No id is shared by two clients. */
  predicate IdsUnicos(cs: seq<Cliente>)
  {
    KeysUnique(cs, IdCliente)
  }

  /** Deleting an id no client has changes nothing. */
  lemma RemoverAusente(cs: seq<Cliente>, id: int)
    requires id !in Ids(cs)
    ensures RemoverCliente(cs, id) == cs
  {
    forall c | c in cs ensures c.id != id {
      var i :| 0 <= i < |cs| && cs[i] == c;
      assert Ids(cs)[i] == c.id;
    }
    FilterKeepsAll(cs, (c: Cliente) => c.id != id);
  }

  /** Deleting a client just created under a fresh id restores the list. */
  lemma CriarDepoisRemover(cs: seq<Cliente>, id: int, dados: ClienteForm)
    requires id !in Ids(cs)
    ensures RemoverCliente(cs + [Cliente(id, dados)], id) == cs
  {
    var p := (c: Cliente) => c.id != id;
    FilterAppend(cs, [Cliente(id, dados)], p);
    RemoverAusente(cs, id);
    assert Filter([Cliente(id, dados)], p) == [];
  }

  /** Editing an id no client has changes nothing. */
  lemma SubstituirAusente(cs: seq<Cliente>, id: int, dados: ClienteForm)
    requires id !in Ids(cs)
    ensures SubstituirCliente(cs, id, dados) == cs
  {
    var r := SubstituirCliente(cs, id, dados);
    forall i | 0 <= i < |cs| ensures r[i] == cs[i] {
      assert Ids(cs)[i] == cs[i].id;
    }
  }

  /** Saving the same edit twice is the same as saving it once. */
  lemma SubstituirIdempotente(cs: seq<Cliente>, id: int, dados: ClienteForm)
    ensures SubstituirCliente(SubstituirCliente(cs, id, dados), id, dados) == SubstituirCliente(cs, id, dados)
  {
  }

  /**
   * With unique ids, editing the client at `k` changes position `k` only, and
   * the ids stay unique.
   */
  lemma SubstituiSoOEditado(cs: seq<Cliente>, k: int, dados: ClienteForm)
    requires IdsUnicos(cs) && 0 <= k < |cs|
    ensures SubstituirCliente(cs, cs[k].id, dados) == cs[k := Cliente(cs[k].id, dados)]
    ensures IdsUnicos(cs[k := Cliente(cs[k].id, dados)])
  {
    var r := SubstituirCliente(cs, cs[k].id, dados);
    var e := cs[k := Cliente(cs[k].id, dados)];
    forall i | 0 <= i < |cs| && i != k ensures cs[i].id != cs[k].id {
      KeysUniqueAt(cs, IdCliente, i, k);
    }
    assert r == e;
    forall i, j | 0 <= i < j < |e| ensures KeysDifferAt(e, IdCliente, i, j) {
      KeysUniqueAt(cs, IdCliente, i, j);
    }
  }

  /** Deleting keeps the ids unique. */
  lemma RemoverMantemIdsUnicos(cs: seq<Cliente>, id: int)
    requires IdsUnicos(cs)
    ensures IdsUnicos(RemoverCliente(cs, id))
  {
    SubsequenceKeysUnique(RemoverCliente(cs, id), cs, IdCliente);
  }

  /** `field.value?.includes(project)`: whether the project's checkbox is ticked. */
  predicate Marcado(valor: Option<seq<string>>, projeto: string)
  {
    projeto in valor.GetOr([])
  }

  /**
   * The project checkbox's `onCheckedChange`: ticking appends the project's
   * name; unticking removes every occurrence of it and keeps the other names,
   * as often as before and in order.
   */
  function AlternarProjeto(valor: Option<seq<string>>, projeto: string, marcado: bool): (r: seq<string>)
    ensures marcado ==> r == valor.GetOr([]) + [projeto] && Marcado(Some(r), projeto)
    ensures !marcado ==> !Marcado(Some(r), projeto)
    ensures !marcado ==> IsSubsequence(r, valor.GetOr([]))
    ensures !marcado ==> forall x :: x != projeto ==> multiset(r)[x] == multiset(valor.GetOr([]))[x]
  {
    if marcado then valor.GetOr([]) + [projeto]
    else Filter(valor.GetOr([]), (v: string) => v != projeto)
  }

  /** Ticking a project that was not linked and unticking it again restores the list. */
  lemma MarcarDesmarcar(valor: Option<seq<string>>, projeto: string)
    requires !Marcado(valor, projeto)
    ensures AlternarProjeto(Some(AlternarProjeto(valor, projeto, true)), projeto, false) == valor.GetOr([])
  {
    var p := (v: string) => v != projeto;
    FilterAppend(valor.GetOr([]), [projeto], p);
    FilterKeepsAll(valor.GetOr([]), p);
    assert Filter([projeto], p) == [];
  }

  /** Unticking twice is the same as unticking once. */
  lemma DesmarcarIdempotente(valor: Option<seq<string>>, projeto: string)
    ensures AlternarProjeto(Some(AlternarProjeto(valor, projeto, false)), projeto, false) ==
            AlternarProjeto(valor, projeto, false)
  {
    var r := AlternarProjeto(valor, projeto, false);
    FilterKeepsAll(r, (v: string) => v != projeto);
  }

  /** The state of the Clientes page. */
  class EstadoClientes {
    /** The e-mail format check the form applies to every contact. */
    const emailValido: string -> bool
    var clientes: seq<Cliente>
    var open: bool
    var editingId: Option<int>

    /** Every stored client passed the client form. */
    ghost predicate Valid()
      reads this
    {
      forall c :: c in clientes ==> ClienteFormValido(c.dados, emailValido)
    }

    /** The page mounts with no client, the dialog closed and in create mode. */
    constructor (emailValido: string -> bool)
      ensures Valid() && this.emailValido == emailValido
      ensures clientes == [] && !open && editingId == None
    {
      this.emailValido := emailValido;
      clientes := [];
      open := false;
      editingId := None;
    }

    /** `setOpen`, called by the dialog as it opens or closes. */
    method SetOpen(aberto: bool)
      requires Valid()
      modifies this
      ensures Valid()
      ensures open == aberto && clientes == old(clientes) && editingId == old(editingId)
    {
      open := aberto;
    }

    /** "Novo Cliente": switches to create mode, and the dialog opens. */
    method NovoCliente()
      requires Valid()
      modifies this
      ensures Valid()
      ensures editingId == None && open && clientes == old(clientes)
    {
      editingId := None;
      open := true;
    }

    /** `handleEdit`: switches to editing that client, and opens the dialog. */
    method HandleEdit(cliente: Cliente)
      requires Valid()
      modifies this
      ensures Valid()
      ensures editingId == Some(cliente.id) && open && clientes == old(clientes)
    {
      editingId := Some(cliente.id);
      open := true;
    }

    /**
     * `onSubmit`: in edit mode every client with the edited id takes the new
     * data under the same id; in create mode the client is appended under
     * `novoId`. Either way the dialog closes and the mode returns to create.
     */
    method OnSubmit(data: ClienteForm, novoId: int)
      requires Valid() && ClienteFormValido(data, emailValido)
      modifies this
      ensures Valid()
      ensures old(editingId).Some? ==> clientes == SubstituirCliente(old(clientes), old(editingId).value, data)
      ensures old(editingId).None? ==> clientes == old(clientes) + [Cliente(novoId, data)]
      ensures !open && editingId == None
      ensures old(editingId).Some? ==> Ids(clientes) == Ids(old(clientes))
      ensures old(editingId).None? && IdsUnicos(old(clientes)) && novoId !in Ids(old(clientes)) ==>
                IdsUnicos(clientes)
    {
      if editingId.Some? {
        var id := editingId.value;
        clientes := SubstituirCliente(clientes, id, data);
        assert Ids(clientes) == Ids(old(clientes));
      } else {
        if IdsUnicos(clientes) && novoId !in Ids(clientes) {
          AppendFreshKey(clientes, Cliente(novoId, data), IdCliente);
        }
        clientes := clientes + [Cliente(novoId, data)];
      }
      open := false;
      editingId := None;
    }

    /** `handleDelete`: removes every client with that id. */
    method HandleDelete(id: int)
      requires Valid()
      modifies this
      ensures Valid()
      ensures clientes == RemoverCliente(old(clientes), id)
      ensures open == old(open) && editingId == old(editingId)
      ensures IdsUnicos(old(clientes)) ==> IdsUnicos(clientes)
    {
      if IdsUnicos(clientes) {
        RemoverMantemIdsUnicos(clientes, id);
      }
      clientes := RemoverCliente(clientes, id);
    }
  }
}
