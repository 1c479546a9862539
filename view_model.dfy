/** The renderable view tree modules hand to the dashboard: panel descriptors, documents and
    the blocks inside them. Styles, icons and display formatting are not carried; numbers are
    kept as numbers. */
module Views {
  import opened Wrappers
  import opened Wallet

  /** Layout metadata of one dashboard panel. */
  datatype ViewDescriptor = ViewDescriptor(
    id: string, moduleName: string, title: string, description: string, zone: string, order: int, columnSpan: int)

  datatype Action = Action(id: string, caption: string, command: string, isPrimary: bool)

  /** A form field; `caption` is the label shown to the user; `limit` is the number its description quotes. */
  datatype FormField = FormField(id: string, caption: string, value: string, required: bool, maxLength: int, limit: int)

  /** A list row: the wallet it shows, the count on its badge, and whether it is selected. */
  datatype ListItem = ListItem(
    id: string, caption: string, wallet: Option<WalletBreakdown>, count: Option<int>, isActive: bool, accent: Option<string>)

  datatype Block =
    | Section(id: string, title: string, description: string, children: seq<Block>)
    | Metric(id: string, caption: string, value: int, secondary: Option<int>)
    | ListView(id: string, title: string, items: seq<ListItem>, allowSelection: bool)
    | ActionBar(id: string, actions: seq<Action>)
    | Form(id: string, title: string, fields: seq<FormField>, actions: seq<Action>)

  /** One panel: its descriptor, its blocks and the refresh interval the client should poll at. */
  datatype ViewDocument = ViewDocument(descriptor: ViewDescriptor, blocks: seq<Block>, refreshInterval: Option<string>)

  /** The ids of a block list, in order. */
  function Ids(blocks: seq<Block>): (r: seq<string>)
    ensures |r| == |blocks|
    ensures forall i | 0 <= i < |blocks| :: r[i] == blocks[i].id
  {
    seq(|blocks|, i requires 0 <= i < |blocks| => blocks[i].id)
  }
}
