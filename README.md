# Consultorias: service orders, clients and role navigation

This project models, in Dafny, the in-memory record keeping of a consultancy
management front end:

- **Projetos/OS** (`src/pages/Projetos.tsx`). Service orders (OS) move through a
  fixed, ordered catalogue of seven delivery stages, from "Preparação" to
  "Concluída/Arquivada". `proximaEtapa` is the bounded successor: the last
  stage maps to itself. Creating an OS validates the form (`osSchema`) and
  appends the OS with a one-entry timeline ("OS criada"). A stage event
  (`onSubmitEtapa`) appends one timeline entry, tagged with the stage the OS
  was in. When "concluir" is ticked, the event also advances the OS to the
  next stage. The updated OS is written back into the list by id.
- **Clientes** (`src/pages/Clientes.tsx`). Client records are kept under
  numeric ids. The client form (`clientSchema`, `contactSchema`) decides what
  may be stored. The page supports create and edit through one dialog, whose
  mode is held in `editingId`. It also supports deletion by id, and ticking
  or unticking the projects a client is linked to.
- **Sidebar** (`src/components/Sidebar.tsx`). The side navigation is a
  constant table of ten entries, each listing the roles (`consultor`,
  `gestor`, `cliente`) allowed to see it. The entries shown are the table
  filtered by the current role.

Modules:

- `Wrappers`: `Option` and `Result`.
- `Seqs`: `indexOf`, `map` and `filter` as sequence functions, each
  characterised by its contract.
- `Etapas`: the stage catalogue and `proximaEtapa`.
- `Projetos`: OS records, the OS form, the stage event, and the page state
  as the class `EstadoProjetos`.
- `Clientes`: client records, the client form, list edits, the project
  toggle, and the page state as the class `EstadoClientes`.
- `Sidebar`: the navigation table, its role filter, and the links rendered
  for the entries shown.

The React state of each page (`useState` hooks) is a class whose fields are
the state variables. Its handlers are methods that reassign those fields, and
each method's postcondition states the new state in terms of the old one. An
invariant `Valid()` is kept by every handler:

- on Projetos/OS, every OS carries form data that `osSchema` accepts, and
  every OS is consistent: its timeline opens with "OS criada", never goes
  back in the catalogue, and is not ahead of the OS's status;
- on Clientes, every stored client passed the client form.

Ids and timestamps come from the clock in the source (`Date.now()`,
`new Date().toISOString()`). Here they are parameters of the handlers. The
source does not guarantee that ids are unique. So the handlers' contracts
state the `map`/`filter` semantics for every record carrying the id. Where
ids are unique (`IdsUnicos`), separate clauses and lemmas show that they
stay unique and that only the selected record changes.

Behaviour of the code worth noting:

- A new OS starts in the stage chosen on the form (default "Preparação",
  `src/pages/Projetos.tsx:101`). It is not forced to the first stage.
- An unknown stage cannot reach `proximaEtapa`: stages are an enumeration.
  `Etapas.PosicaoEIndexOf` shows that `indexOf` finds every stage, so the
  -1 case of `indexOf` never arises. There is no error for an unknown stage.
- The page has no operation that edits or deletes an OS, and no "not found"
  errors. Editing or deleting a client id that is absent leaves the list
  unchanged (`Clientes.SubstituirAusente`, `Clientes.RemoverAusente`).
- Timestamps are not claimed to increase.

## Model

| member | source | states |
|---|---|---|
| Seqs.IndexOf | src/pages/Projetos.tsx:83 | `indexOf` gives the first position of the value, or -1 exactly when the value is absent |
| Seqs.Filter | src/pages/Clientes.tsx:116 | `filter` keeps exactly the elements that pass, each as often as before, in their original order |
| Seqs.Map | src/pages/Clientes.tsx:98-99 | `map` keeps the length and applies the function at every position |
| Seqs.AppendFreshKey | src/pages/Clientes.tsx:102 | appending a record under a key no record has keeps keys unique |
| Seqs.SubsequenceKeysUnique | src/pages/Clientes.tsx:116 | a list that keeps some records of a list with unique keys, in order, has unique keys |
| Seqs.FilterAppend | src/components/Sidebar.tsx:31-32 | filtering a concatenation is the concatenation of the filtered parts |
| Etapas.Nomes | src/pages/Projetos.tsx:42-50 | the catalogue lists the seven stage names in delivery order |
| Etapas.EtapaDeNome | src/pages/Projetos.tsx:65 | `z.enum(statusEtapas)` accepts a name exactly when it names a stage, and returns that stage |
| Etapas.EtapaDeNomeInverteNome | src/pages/Projetos.tsx:65 | reading back any stage's name gives that stage |
| Etapas.NomesDistintos | src/pages/Projetos.tsx:42-50 | no two stages share a name |
| Etapas.CatalogoCompleto | src/pages/Projetos.tsx:42-52 | every stage of the `StatusOS` type is in the catalogue |
| Etapas.CatalogoSemRepeticao | src/pages/Projetos.tsx:42-50 | no stage is listed twice |
| Etapas.Posicao | src/pages/Projetos.tsx:83 | every stage has a position in the catalogue, holding that stage |
| Etapas.PosicaoEIndexOf | src/pages/Projetos.tsx:83 | `statusEtapas.indexOf(etapa)` returns the stage's position and is never -1 |
| Etapas.PosicaoNoCatalogo | src/pages/Projetos.tsx:42-50 | the stage at position i is found at position i |
| Etapas.ProximaEtapa | src/pages/Projetos.tsx:82-85 | `proximaEtapa`; what it promises is stated by `Etapas.ProximaEtapaSucessora`, `Etapas.ProximaEtapaTerminal` and `Etapas.ProximaEtapaAvanca` |
| Etapas.Avancar | src/pages/Projetos.tsx:82-85 | `proximaEtapa` applied n times; where it lands is stated by `Etapas.AvancarDesde` |
| Etapas.ProximaEtapaSucessora | src/pages/Projetos.tsx:82-85 | every non-terminal stage at position i is followed by the stage at position i+1 |
| Etapas.ProximaEtapaTerminal | src/pages/Projetos.tsx:84 | "Concluída/Arquivada" maps to itself |
| Etapas.ProximaEtapaAvanca | src/pages/Projetos.tsx:82-85 | `proximaEtapa` never moves back: the position rises by exactly one, except at the terminal stage |
| Etapas.AvancarDesde | src/pages/Projetos.tsx:82-85 | n steps from any stage reach position min(position + n, 6) |
| Etapas.PreparacaoAteConcluida | src/pages/Projetos.tsx:82-85 | six steps from "Preparação" reach "Concluída/Arquivada", and a seventh step changes nothing |
| Projetos.PrioridadeDeNome | src/pages/Projetos.tsx:54 | `z.enum(prioridades)` accepts exactly "Baixa", "Média" and "Alta" |
| Projetos.NomesPrioridadeDistintos | src/pages/Projetos.tsx:54 | no two priorities share a name |
| Projetos.OSFormValido | src/pages/Projetos.tsx:59-65 | an accepted OS form: the five `min(1)` text fields are non-empty |
| Projetos.CamposOSCompletos | src/pages/Projetos.tsx:58-66 | every field of `osSchema` is checked |
| Projetos.ErrosOS | src/pages/Projetos.tsx:58-66 | the refused fields are exactly those breaking their rule, each once, in schema order |
| Projetos.CamposOSValidos | src/pages/Projetos.tsx:58-66 | all field rules hold exactly when the five text fields are non-empty and the priority and status name catalogue members |
| Projetos.ValidarOS | src/pages/Projetos.tsx:58-66 | a submission is accepted exactly when the five text fields are non-empty and priority and status are catalogue names; the accepted form carries the submitted values; a refusal lists the offending fields and is never empty |
| Projetos.ValidarOSAceitaValidos | src/pages/Projetos.tsx:58-66 | every form `osSchema` accepts has its five text fields non-empty |
| Projetos.ValidarOSRecuperaFormulario | src/pages/Projetos.tsx:58-66 | submitting the names of an accepted form's values gives back that form |
| Projetos.EntradaPadrao | src/pages/Projetos.tsx:94-102 | the form's default values; their meaning is stated by `Projetos.EntradaPadraoComecaEmPreparacao` |
| Projetos.EntradaPadraoComecaEmPreparacao | src/pages/Projetos.tsx:94-102 | the default values, once the text fields are filled, are accepted with status "Preparação" and priority "Média" |
| Projetos.NovaOS | src/pages/Projetos.tsx:111-121 | the new OS carries the form and the id, and its timeline is exactly one "OS criada" entry tagged with the submitted status |
| Projetos.NovaOSConsistente | src/pages/Projetos.tsx:114-120 | a new OS is consistent |
| Projetos.DescricaoOuVazia | src/pages/Projetos.tsx:136 | the note of a stage event, or "" when none was given; that the new entry carries it is stated by `Projetos.RegistrarEtapa` |
| Projetos.RegistrarEtapa | src/pages/Projetos.tsx:129-138 | a stage event keeps the id and data, keeps the old timeline as a prefix, and adds exactly one entry tagged with the stage before the call and carrying the note or "" |
| Projetos.RegistrarEtapaAvanca | src/pages/Projetos.tsx:130 | with "concluir", the status moves forward by exactly one stage unless it is terminal; without it, the status stays |
| Projetos.ConcluirNaEtapaFinal | src/pages/Projetos.tsx:130 | concluding at "Concluída/Arquivada" keeps that status but still logs one entry |
| Projetos.DuasNotasMesmaEtapa | src/pages/Projetos.tsx:129-137 | two events without "concluir" add two entries tagged with the same stage and leave the status unchanged |
| Projetos.RegistrarEtapaMantemOrdem | src/pages/Projetos.tsx:134-137 | appending an entry no earlier than the last keeps the timeline in catalogue order |
| Projetos.RegistrarEtapaPreservaConsistencia | src/pages/Projetos.tsx:129-138 | a stage event keeps an OS consistent |
| Projetos.SubstituirPorId | src/pages/Projetos.tsx:139 | every OS with the id is replaced by the updated OS; every other OS stays in place |
| Projetos.SubstituiSoASelecionada | src/pages/Projetos.tsx:139 | with unique ids, replacing by id changes only the selected position, and ids stay unique |
| Projetos.SubstituirSelecionada | src/pages/Projetos.tsx:139-140 | writing back a consistent OS with a longer timeline keeps all OSs consistent and the ids in place; with unique ids, no timeline loses an entry |
| Projetos.RegistrarNaLista | src/pages/Projetos.tsx:127-140 | recording an event on a listed OS and writing it back keeps the list consistent and the ids in place, and puts the result in the list |
| Projetos.RegistrarNaListaMantemFormularios | src/pages/Projetos.tsx:131-139 | a stage event keeps the OS's form data, so a list of accepted forms stays one after the write-back |
| Projetos.RegistrarNaListaValida | src/pages/Projetos.tsx:127-140 | after the write-back, every OS has an accepted form and is consistent, the result is listed, and the ids are in place |
| Projetos.RegistrarNaListaUnica | src/pages/Projetos.tsx:139 | with unique ids, the write-back keeps them unique and shortens no timeline |
| Projetos.EstadoProjetos.constructor | src/pages/Projetos.tsx:88-90 | the page starts with no OS, the dialog closed and nothing selected |
| Projetos.EstadoProjetos.SetOpen | src/pages/Projetos.tsx:148 | opening or closing the dialog changes nothing else |
| Projetos.EstadoProjetos.OnSubmit | src/pages/Projetos.tsx:110-125 | given a form `osSchema` accepted (`handleSubmit`, line 157), the new OS is appended at the end, earlier OSs are unchanged, the dialog closes, and a fresh id keeps ids unique |
| Projetos.EstadoProjetos.Acompanhar | src/pages/Projetos.tsx:309 | "Acompanhar" selects a listed OS and changes nothing else |
| Projetos.EstadoProjetos.Fechar | src/pages/Projetos.tsx:375 | "Fechar" clears the selection and changes nothing else |
| Projetos.EstadoProjetos.OnSubmitEtapa | src/pages/Projetos.tsx:127-142 | with no selection nothing changes; otherwise the event's result replaces every OS with the selected id and becomes the selection; ids are kept, consistency is kept, and with unique ids no timeline loses an entry; every OS keeps an accepted form |
| Clientes.ErrosContatos | src/pages/Clientes.tsx:35-39 | a contact is refused at its name exactly when the name is empty, and at its e-mail exactly when the e-mail is malformed |
| Clientes.ErrosCliente | src/pages/Clientes.tsx:41-53 | the refused places are exactly those breaking their rule |
| Clientes.SemErrosEntaoValido | src/pages/Clientes.tsx:41-53 | a form refused nowhere passes `clientSchema` |
| Clientes.ValidoEmCadaCampo | src/pages/Clientes.tsx:41-53 | a form that passes `clientSchema` meets every field rule |
| Clientes.ValidoEntaoSemErros | src/pages/Clientes.tsx:41-53 | a form that passes `clientSchema` is refused nowhere |
| Clientes.ClienteFormValido | src/pages/Clientes.tsx:35-53 | `clientSchema` with `contactSchema` as a predicate; that it holds exactly when no field is refused is stated by `Clientes.SemErrosSeValido` |
| Clientes.SemErrosSeValido | src/pages/Clientes.tsx:35-53 | the form is refused nowhere exactly when the text fields are non-empty, the head count is not negative, and there is at least one contact, each with a name and a well-formed e-mail |
| Clientes.SubstituirCliente | src/pages/Clientes.tsx:97-100 | editing gives every client with the id the new data under the same id; the length and the other clients are unchanged |
| Clientes.SubstituirAusente | src/pages/Clientes.tsx:97-100 | editing an id that no client has changes nothing |
| Clientes.SubstituirIdempotente | src/pages/Clientes.tsx:97-100 | saving the same edit twice equals saving it once |
| Clientes.SubstituiSoOEditado | src/pages/Clientes.tsx:97-100 | with unique ids, editing changes only the edited position, and ids stay unique |
| Clientes.RemoverCliente | src/pages/Clientes.tsx:115-117 | deleting leaves no client with the id and keeps every other client, as often as before, in order |
| Clientes.RemoverAusente | src/pages/Clientes.tsx:115-117 | deleting an absent id is a no-op |
| Clientes.CriarDepoisRemover | src/pages/Clientes.tsx:96-117 | deleting a client just created under a fresh id restores the list |
| Clientes.RemoverMantemIdsUnicos | src/pages/Clientes.tsx:115-117 | deleting keeps ids unique |
| Clientes.Marcado | src/pages/Clientes.tsx:356 | a project's box is ticked when the client's list includes it; `Clientes.AlternarProjeto` states how ticking changes that |
| Clientes.AlternarProjeto | src/pages/Clientes.tsx:357-370 | ticking appends the project and makes it ticked; unticking removes every occurrence of it and keeps the other names, as often as before and in order |
| Clientes.MarcarDesmarcar | src/pages/Clientes.tsx:357-370 | ticking an unlinked project and unticking it again restores the list |
| Clientes.DesmarcarIdempotente | src/pages/Clientes.tsx:364-370 | unticking twice equals unticking once |
| Clientes.EstadoClientes.constructor | src/pages/Clientes.tsx:69-71 | the page starts with no client, the dialog closed and in create mode |
| Clientes.EstadoClientes.SetOpen | src/pages/Clientes.tsx:127 | opening or closing the dialog changes nothing else |
| Clientes.EstadoClientes.NovoCliente | src/pages/Clientes.tsx:128-133 | "Novo Cliente" switches to create mode, the dialog opens, and the list is unchanged |
| Clientes.EstadoClientes.HandleEdit | src/pages/Clientes.tsx:109-113 | `handleEdit` switches to editing that client's id and opens the dialog |
| Clientes.EstadoClientes.OnSubmit | src/pages/Clientes.tsx:96-107 | in edit mode every client with the edited id takes the data and ids are kept; in create mode one client is appended at the end, and a fresh id keeps ids unique; afterwards the dialog is closed and the mode is create |
| Clientes.EstadoClientes.HandleDelete | src/pages/Clientes.tsx:115-117 | `handleDelete` removes every client with the id, changes nothing else, and keeps ids unique |
| Sidebar.ItensVisiveis | src/components/Sidebar.tsx:31-32 | an entry is shown exactly when it is in the table and lists the role; shown entries keep table order |
| Sidebar.VisivelPara | src/components/Sidebar.tsx:32 | the filter's test `item.roles.includes(role)`; `Sidebar.ItensVisiveis` states what it selects |
| Sidebar.VisiveisSemRepeticao | src/components/Sidebar.tsx:31-32 | the entries shown to any role have distinct destinations |
| Sidebar.Links | src/components/Sidebar.tsx:33-37 | one link per entry shown, in the same order, each leading to the entry's route under its label |
| Sidebar.ChavesDistintas | src/components/Sidebar.tsx:34 | the links shown to any role have distinct keys |
| Sidebar.LinksDoCliente | src/components/Sidebar.tsx:21 | "cliente" is shown exactly one link, to "/portal", labelled "Portal do Cliente" |
| Sidebar.GestorVeTudo | src/components/Sidebar.tsx:4-23 | "gestor" sees all ten entries, in order |
| Sidebar.ClienteVeSoPortal | src/components/Sidebar.tsx:21 | "cliente" sees exactly "Portal do Cliente" |
| Sidebar.ConsultorVeAreasDeTrabalho | src/components/Sidebar.tsx:5-20 | "consultor" sees the eight working areas, in order, and neither "Portal do Cliente" nor "Configurações" |
| Sidebar.ConfiguracoesSoParaGestor | src/components/Sidebar.tsx:22 | "Configurações" is shown to "gestor" and to no other role |
| Sidebar.PortalOcultoAoConsultor | src/components/Sidebar.tsx:21 | "Portal do Cliente" is hidden from "consultor" only |
| Sidebar.TodoItemTemPublico | src/components/Sidebar.tsx:4-23 | every entry is open to "gestor", and every entry except "Configurações" is also open to another role |
| Sidebar.RotasDistintas | src/components/Sidebar.tsx:34 | no two destinations share a route, so routes serve as link keys |
| Sidebar.DestinosDistintos | src/components/Sidebar.tsx:4-23 | each destination appears once in the table |

## Left out

- JSX rendering, dialogs, tables, the `@/components/ui/*` widgets and `date-fns` formatting of timeline dates: view composition with no state logic.
- The internals of zod and react-hook-form. The schemas are predicates on the submitted values. A handler receives only an accepted form, which is why `Clientes.EstadoClientes.OnSubmit` requires `ClienteFormValido` and `Projetos.EstadoProjetos.OnSubmit` requires `OSFormValido`. Form `reset()` and the values loaded into the form by `handleEdit` belong to react-hook-form and are not modelled.
- The e-mail format check of `z.string().email` is a library regular expression. It is the parameter `emailValido`.
- `z.coerce.number()`: the head count is an `int`. Coercion from text, fractions and `NaN` are not modelled.
- `Date.now()` ids and `new Date().toISOString()` timestamps come from the clock. They are parameters, and no increase over time is claimed. The default opening date is the parameter `hoje`.
- Contact rows added and removed with `useFieldArray`, and the file input that fills `documentos`: widget plumbing and browser I/O.
- `handleNovoProjeto` and routing: navigation only.
- The `RoleContext` provider, `MainLayout` and `RoleSelector`: context plumbing. The role is a parameter of `Sidebar.ItensVisiveis`.
- The marketing components `Footer`, `Testimonials`, `CTA` and `Features`: static content.
- The order of the nav table's entries is the source's. In the model the table is written as the eight working areas followed by the portal and the settings entries.
