/**
 * The application's side navigation: the fixed table of destinations, each
 * tagged with the roles allowed to see it, and the links shown to the
 * current role.
 */
module Sidebar {
  import opened Seqs

  /** The profile the user acts under (`Role` of the role context). */
  datatype Role = Consultor | Gestor | Cliente

  /** The pages the side navigation links to. */
  datatype Destino =
    | Clientes
    | Projetos
    | FluxoAtendimentos
    | Agenda
    | Relatorios
    | Propostas
    | BibliotecaMelhorias
    | Indicadores
    | PortalDoCliente
    | Configuracoes

  /** The route of a destination (`to`). */
  function Rota(d: Destino): string
  {
    match d
    case Clientes => "/clientes"
    case Projetos => "/projetos"
    case FluxoAtendimentos => "/fluxo-atendimentos"
    case Agenda => "/agenda"
    case Relatorios => "/relatorios"
    case Propostas => "/propostas"
    case BibliotecaMelhorias => "/biblioteca-melhorias"
    case Indicadores => "/indicadores"
    case PortalDoCliente => "/portal"
    case Configuracoes => "/configuracoes"
  }

  /** The text of a destination's link (`label`). */
  function Rotulo(d: Destino): string
  {
    match d
    case Clientes => "Clientes"
    case Projetos => "Projetos/OS"
    case FluxoAtendimentos => "Fluxo de Atendimentos"
    case Agenda => "Agenda"
    case Relatorios => "Relatórios"
    case Propostas => "Propostas"
    case BibliotecaMelhorias => "Biblioteca de Melhorias"
    case Indicadores => "Indicadores"
    case PortalDoCliente => "Portal do Cliente"
    case Configuracoes => "Configurações"
  }

  /** An entry of the side navigation and the roles it is shown to. */
  datatype NavItem = NavItem(destino: Destino, roles: seq<Role>)

  /** The first eight entries of `navItems`: the working areas of the consultancy. */
  const AreasDeTrabalho: seq<NavItem> := [
    NavItem(Clientes, [Consultor, Gestor]),
    NavItem(Projetos, [Consultor, Gestor]),
    NavItem(FluxoAtendimentos, [Consultor, Gestor]),
    NavItem(Agenda, [Consultor, Gestor]),
    NavItem(Relatorios, [Consultor, Gestor]),
    NavItem(Propostas, [Consultor, Gestor]),
    NavItem(BibliotecaMelhorias, [Consultor, Gestor]),
    NavItem(Indicadores, [Consultor, Gestor])
  ]

  /** The client portal entry. */
  const ItemPortal: NavItem := NavItem(PortalDoCliente, [Cliente, Gestor])

  /** The settings entry. */
  const ItemConfiguracoes: NavItem := NavItem(Configuracoes, [Gestor])

  /** `navItems`: the entries, in display order. */
  const NavItems: seq<NavItem> := AreasDeTrabalho + [ItemPortal, ItemConfiguracoes]

  /** `(item) => item.roles.includes(role)`: whether an entry is shown to `role`. */
  function VisivelPara(role: Role): NavItem -> bool
  {
    (it: NavItem) => role in it.roles
  }

  /**
   * `navItems.filter((item) => item.roles.includes(role))`: exactly the
   * entries open to `role`, in table order.
   */
  function ItensVisiveis(role: Role): (r: seq<NavItem>)
    ensures forall it :: it in r <==> it in NavItems && role in it.roles
    ensures IsSubsequence(r, NavItems)
  {
    Filter(NavItems, VisivelPara(role))
  }

  /** Every entry is open to a manager. */
  lemma TodosParaGestor()
    ensures forall it :: it in NavItems ==> VisivelPara(Gestor)(it)
  {
  }

  /** The filter of `navItems` for a manager keeps the whole table. */
  lemma FiltroGestor()
    ensures Filter(NavItems, VisivelPara(Gestor)) == NavItems
  {
    TodosParaGestor();
    FilterKeepsAll(NavItems, VisivelPara(Gestor));
  }

  /** A manager sees every entry, in table order. */
  lemma GestorVeTudo()
    ensures ItensVisiveis(Gestor) == NavItems
  {
    FiltroGestor();
  }

  /** The working areas are open to consultants and managers, not to clients. */
  lemma AreasSoParaEquipe(role: Role)
    ensures forall it :: it in AreasDeTrabalho ==> (VisivelPara(role)(it) <==> role != Cliente)
  {
  }

  /** Which of the two last entries each role keeps. */
  lemma FiltroExtras(role: Role)
    ensures Filter([ItemPortal, ItemConfiguracoes], VisivelPara(role)) ==
      (if role == Consultor then [] else [ItemPortal]) + (if role == Gestor then [ItemConfiguracoes] else [])
  {
    assert [ItemPortal, ItemConfiguracoes][1..] == [ItemConfiguracoes];
  }

  /** The filter of `navItems` for a client keeps the portal alone. */
  lemma FiltroCliente()
    ensures Filter(NavItems, VisivelPara(Cliente)) == [ItemPortal]
  {
    FilterAppend(AreasDeTrabalho, [ItemPortal, ItemConfiguracoes], VisivelPara(Cliente));
    AreasSoParaEquipe(Cliente);
    FilterDropsAll(AreasDeTrabalho, VisivelPara(Cliente));
    FiltroExtras(Cliente);
  }

  /** A client sees the client portal and nothing else. */
  lemma ClienteVeSoPortal()
    ensures ItensVisiveis(Cliente) == [ItemPortal]
  {
    FiltroCliente();
  }

  /** The filter of `navItems` for a consultant keeps the working areas. */
  lemma FiltroConsultor()
    ensures Filter(NavItems, VisivelPara(Consultor)) == AreasDeTrabalho
  {
    AreasSoParaEquipe(Consultor);
    ExtrasForaDaEquipe();
    FilterKeepsPrefix(AreasDeTrabalho, [ItemPortal, ItemConfiguracoes], VisivelPara(Consultor));
  }

  /** Neither the portal nor the settings is open to a consultant. */
  lemma ExtrasForaDaEquipe()
    ensures forall it :: it in [ItemPortal, ItemConfiguracoes] ==> !VisivelPara(Consultor)(it)
  {
  }

  /**
   * A consultant sees the eight working areas, in table order, but neither
   * the client portal nor the settings.
   */
  lemma ConsultorVeAreasDeTrabalho()
    ensures ItensVisiveis(Consultor) == AreasDeTrabalho
  {
    FiltroConsultor();
  }

  /** The portal and the settings are entries of the table. */
  lemma ExtrasNaTabela()
    ensures ItemPortal in NavItems && ItemConfiguracoes in NavItems
  {
    assert NavItems[|AreasDeTrabalho|] == ItemPortal;
    assert NavItems[|AreasDeTrabalho| + 1] == ItemConfiguracoes;
  }

  /** The settings page is shown to a manager and to no one else. */
  lemma ConfiguracoesSoParaGestor(role: Role)
    ensures ItemConfiguracoes in ItensVisiveis(role) <==> role == Gestor
  {
    match role
    case Gestor =>
      GestorVeTudo();
      ExtrasNaTabela();
    case Consultor =>
      ConsultorVeAreasDeTrabalho();
    case Cliente =>
      ClienteVeSoPortal();
  }

  /** The client portal is hidden from consultants only. */
  lemma PortalOcultoAoConsultor(role: Role)
    ensures ItemPortal in ItensVisiveis(role) <==> role != Consultor
  {
    match role
    case Gestor =>
      GestorVeTudo();
      ExtrasNaTabela();
    case Consultor =>
      ConsultorVeAreasDeTrabalho();
    case Cliente =>
      ClienteVeSoPortal();
  }

  /**
   * Every entry is shown to a manager, and every entry but the settings to
   * some other role as well.
   */
  lemma TodoItemTemPublico(it: NavItem)
    requires it in NavItems
    ensures Gestor in it.roles
    ensures it != ItemConfiguracoes <==> exists role :: role != Gestor && role in it.roles
  {
    if it in AreasDeTrabalho {
      assert Consultor in it.roles;
    } else if it == ItemPortal {
      assert Cliente in it.roles;
    }
  }

  /** No two destinations share a route, so the routes are usable as link keys. */
  lemma RotasDistintas()
    ensures forall d1: Destino, d2: Destino :: Rota(d1) == Rota(d2) ==> d1 == d2
  {
  }

  /** Each destination appears once in the table. */
  lemma DestinosDistintos()
    ensures forall i, j :: 0 <= i < j < |NavItems| ==> NavItems[i].destino != NavItems[j].destino
  {
  }

  /** The destination of an entry. */
  function DestinoDe(it: NavItem): Destino
  {
    it.destino
  }

  /** A rendered link: its route, which is also its key, and its text. */
  datatype Link = Link(rota: string, rotulo: string)

  /** The link an entry renders as. */
  function LinkDe(it: NavItem): Link
  {
    Link(Rota(it.destino), Rotulo(it.destino))
  }

  /**
   * `.map((item) => <Link key={item.to} to={item.to}>{item.label}</Link>)`:
   * one link per entry shown to `role`, in the same order.
   */
  function Links(role: Role): (ls: seq<Link>)
    ensures |ls| == |ItensVisiveis(role)|
    ensures forall i :: 0 <= i < |ls| ==> ls[i] == LinkDe(ItensVisiveis(role)[i])
  {
    Map(ItensVisiveis(role), LinkDe)
  }

  /** The entries shown to any role have distinct destinations. */
  lemma VisiveisSemRepeticao(role: Role)
    ensures KeysUnique(ItensVisiveis(role), DestinoDe)
  {
    DestinosDistintos();
    assert KeysUnique(NavItems, DestinoDe);
    SubsequenceKeysUnique(ItensVisiveis(role), NavItems, DestinoDe);
  }

  /** Entries with distinct destinations render links with distinct keys. */
  lemma ChavesDeDestinosDistintos(its: seq<NavItem>)
    requires KeysUnique(its, DestinoDe)
    ensures forall i, j :: 0 <= i < j < |its| ==> LinkDe(its[i]).rota != LinkDe(its[j]).rota
  {
    RotasDistintas();
    forall i, j | 0 <= i < j < |its| ensures LinkDe(its[i]).rota != LinkDe(its[j]).rota {
      KeysUniqueAt(its, DestinoDe, i, j);
    }
  }

  /** The links shown to any role have distinct keys (`key={item.to}`). */
  lemma ChavesDistintas(role: Role)
    ensures forall i, j :: 0 <= i < j < |Links(role)| ==> Links(role)[i].rota != Links(role)[j].rota
  {
    VisiveisSemRepeticao(role);
    ChavesDeDestinosDistintos(ItensVisiveis(role));
  }

  /** A client's only link leads to the client portal. */
  lemma LinksDoCliente()
    ensures Links(Cliente) == [Link("/portal", "Portal do Cliente")]
  {
    ClienteVeSoPortal();
    LinkUnico(ItensVisiveis(Cliente), ItemPortal);
    LinkDoPortal();
  }

  /** One entry renders one link. */
  lemma LinkUnico(its: seq<NavItem>, it: NavItem)
    requires its == [it]
    ensures Map(its, LinkDe) == [LinkDe(it)]
  {
  }

  /** The portal entry's link. */
  lemma LinkDoPortal()
    ensures LinkDe(ItemPortal) == Link("/portal", "Portal do Cliente")
  {
  }
}
