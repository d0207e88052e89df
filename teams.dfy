/** The team list: the teams of a conference, as list items drawn by a
    one-line delegate. */
module TeamsView {
  import opened Wrappers
  import opened Cfbd
  import opened Tea

  /** A list item wrapping one team record of the service. */
  datatype Item = Item(swaggerTeam: Team)

  /** The list widget as far as the screen sets it: its items and its size.
      Its delegate is the one below; its key handling is the widget's own. */
  datatype ListWidget = ListWidget(items: seq<Item>, width: int, height: int)

  /** The options of `New`: the conference filter for the request. */
  datatype NewOpts = NewOpts(conference: Option<string>)

  /** The screen's state. `sort` and `conference` are the optional strings
      kept on the model; `teams` and `list.items` hold the same teams. */
  datatype Model = Model(
    sort: Option<string>,
    conference: Option<string>,
    teams: seq<Item>,
    list: ListWidget)

  /** The text the list filters an item by: its school. */
  function FilterValue(item: Item): string
  {
    item.swaggerTeam.school
  }

  /** What the delegate writes for an item. */
  function RenderItem(item: Item): string
  {
    item.swaggerTeam.school
  }

  function DelegateHeight(): int
  {
    1
  }

  function DelegateSpacing(): int
  {
    1
  }

  function DelegateUpdate(msg: Msg): Cmd
  {
    NoCmd
  }

  /** The delegate draws each item as exactly the text the list filters it
      by, on one line with one line of spacing, and ignores every message. */
  lemma DelegateContract(item: Item, msg: Msg)
    ensures RenderItem(item) == FilterValue(item) == item.swaggerTeam.school
    ensures DelegateHeight() == 1 && DelegateSpacing() == 1
    ensures DelegateUpdate(msg) == NoCmd
  {
  }

  /** Fetches the teams (filtered by `opts.conference`) and builds the model:
      one item per team of the response, in the response's order, both in
      `teams` and in the list. The conference is used for the request only:
      the model's `sort` and `conference` are empty whatever the options.
      `Err` is the fatal exit on a failed or non-200 response. */
  method New(api: Api, opts: NewOpts) returns (r: Result<Model, Fatal>)
    ensures var fetched := Checked(api.getTeams(opts.conference));
      && (fetched.Err? ==> r == Err(fetched.error))
      && (fetched.Ok? ==>
            && r.Ok?
            && r.value.sort == None && r.value.conference == None
            && |r.value.teams| == |fetched.value|
            && (forall i :: 0 <= i < |fetched.value| ==> r.value.teams[i].swaggerTeam == fetched.value[i])
            && r.value.list == ListWidget(r.value.teams, 80, 30)
            && (forall i :: 0 <= i < |fetched.value| ==>
                  FilterValue(r.value.list.items[i]) == RenderItem(r.value.list.items[i]) == fetched.value[i].school))
  {
    var fetched := Checked(api.getTeams(opts.conference));
    if fetched.Err? {
      return Err(fetched.error);
    }
    var resp := fetched.value;
    var teams: seq<Item> := [];
    var i := 0;
    while i < |resp|
      invariant 0 <= i <= |resp|
      invariant |teams| == i
      invariant forall k :: 0 <= k < i ==> teams[k].swaggerTeam == resp[k]
    {
      teams := teams + [Item(resp[i])];
      i := i + 1;
    }
    var items: seq<Item> := [];
    var j := 0;
    while j < |teams|
      invariant 0 <= j <= |teams|
      invariant items == teams[..j]
    {
      items := items + [teams[j]];
      j := j + 1;
    }
    assert items == teams;
    var list := ListWidget(items, 80, 30);
    return Ok(Model(None, None, teams, list));
  }
}
