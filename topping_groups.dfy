/** The precedence rule of `useToppingGroupsForItem` in src/hooks/use-topping-groups.ts. */
module ToppingGroups {
  import opened Common

  datatype Source = ItemSource | CategorySource

  datatype Selection<G> = Selection(data: seq<G>, source: Source)

  /** What a topping-group query holds: nothing for a falsy id (the query is disabled and
      its function would return `[]`), otherwise the rows the database returned, if loaded. */
  function QueryData<G>(id: Option<int>, rows: Option<seq<G>>): (r: Option<seq<G>>)
    ensures !IntTruthy(id) ==> r.None?
    ensures IntTruthy(id) ==> r == rows
  {
    if !IntTruthy(id) then None else rows
  }

  /** Item-specific groups win when there are any; otherwise the category groups,
      with missing data read as none. */
  function ToppingGroupsForItem<G>(categoryId: Option<int>, menuItemId: Option<int>,
                                   categoryRows: Option<seq<G>>, itemRows: Option<seq<G>>): (r: Selection<G>)
    ensures var item := QueryData(menuItemId, itemRows);
      item.Some? && item.value != [] ==> r == Selection(item.value, ItemSource)
    ensures var item := QueryData(menuItemId, itemRows);
      (item.None? || item.value == []) ==> r.source == CategorySource
    ensures r.source == CategorySource ==>
      r.data == (if QueryData(categoryId, categoryRows).Some? then QueryData(categoryId, categoryRows).value else [])
    ensures !IntTruthy(categoryId) && !IntTruthy(menuItemId) ==> r == Selection([], CategorySource)
  {
    var item := QueryData(menuItemId, itemRows);
    var category := QueryData(categoryId, categoryRows);
    if item.Some? && |item.value| > 0 then Selection(item.value, ItemSource)
    else Selection(if category.Some? then category.value else [], CategorySource)
  }
}
