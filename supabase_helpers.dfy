/**
 * Wrapping a backend response into items plus an error: a backend error wins,
 * missing data is an empty result, and mapping the rows is all-or-nothing.
 */
module SupabaseHelpers {
  import opened Common

  /** What a row mapper does with one row: a value, or an exception with its message. */
  datatype Mapped<U> = Value(value: U) | Threw(message: string)

  datatype ListResult<U> = ListResult(items: seq<U>, error: Option<string>)
  datatype ItemResult<U> = ItemResult(item: Option<U>, error: Option<string>)

  /** `data.map(mapper)`: every row mapped in order, or the exception of the first row that throws. */
  function MapAll<T, U>(data: seq<T>, mapper: T -> Mapped<U>): (r: Mapped<seq<U>>)
    ensures r.Value? <==> forall i :: 0 <= i < |data| ==> mapper(data[i]).Value?
    ensures r.Value? ==> |r.value| == |data| && forall i :: 0 <= i < |data| ==> r.value[i] == mapper(data[i]).value
    ensures r.Threw? ==> exists i :: 0 <= i < |data| && mapper(data[i]) == Threw(r.message)
  {
    if data == [] then Value([])
    else
      match mapper(data[0])
      case Threw(m) => Threw(m)
      case Value(u) =>
        match MapAll(data[1..], mapper)
        case Threw(m) => Threw(m)
        case Value(us) => Value([u] + us)
  }

  /** `handleSupabaseResponse`. */
  function HandleResponse<T, U>(data: Option<seq<T>>, error: Option<string>, mapper: T -> Mapped<U>): (r: ListResult<U>)
    ensures r.error.Some? ==> r.items == []
  {
    if error.Some? then ListResult([], Some(error.value))
    else
      match MapAll(data.GetOr([]), mapper)
      case Value(items) => ListResult(items, None)
      case Threw(m) => ListResult([], Some(m))
  }

  /** `handleSupabaseSingleResponse`. */
  function HandleSingleResponse<T, U>(data: Option<T>, error: Option<string>, mapper: T -> Mapped<U>): (r: ItemResult<U>)
    ensures r.error.Some? ==> r.item == None
  {
    if error.Some? then ItemResult(None, Some(error.value))
    else if data.None? then ItemResult(None, None)
    else
      match mapper(data.value)
      case Value(u) => ItemResult(Some(u), None)
      case Threw(m) => ItemResult(None, Some(m))
  }

  /** A backend error gives no items and carries the backend's message; so for a single row. */
  lemma BackendErrorWins<T, U>(list: Option<seq<T>>, row: Option<T>, message: string, mapper: T -> Mapped<U>)
    ensures HandleResponse(list, Some(message), mapper) == ListResult([], Some(message))
    ensures HandleSingleResponse(row, Some(message), mapper) == ItemResult(None, Some(message))
  {
  }

  /**
   * Without a backend error a present row gives its mapped value, or no item and the
   * mapper's thrown message.
   */
  lemma SingleMapping<T, U>(row: T, mapper: T -> Mapped<U>)
    ensures mapper(row).Value? ==> HandleSingleResponse(Some(row), None, mapper) == ItemResult(Some(mapper(row).value), None)
    ensures mapper(row).Threw? ==> HandleSingleResponse(Some(row), None, mapper) == ItemResult(None, Some(mapper(row).message))
  {
  }

  /** No data and no error: no items, no error. */
  lemma NullDataIsEmpty<T, U>(mapper: T -> Mapped<U>)
    ensures HandleResponse(None, None, mapper) == ListResult([], None)
    ensures HandleSingleResponse(None, None, mapper) == ItemResult(None, None)
  {
  }

  /**
   * Without a backend error the items are the rows mapped one by one, same length and
   * order, exactly when every row maps; if any row throws, no items and that error.
   */
  lemma MappingAllOrNothing<T, U>(data: seq<T>, mapper: T -> Mapped<U>)
    ensures var r := HandleResponse(Some(data), None, mapper);
      (forall i :: 0 <= i < |data| ==> mapper(data[i]).Value?) ==>
        r.error == None && |r.items| == |data| && forall i :: 0 <= i < |data| ==> r.items[i] == mapper(data[i]).value
    ensures var r := HandleResponse(Some(data), None, mapper);
      (exists i :: 0 <= i < |data| && mapper(data[i]).Threw?) ==>
        r.items == [] && r.error.Some? && exists i :: 0 <= i < |data| && mapper(data[i]) == Threw(r.error.value)
  {
  }

  /** Never both: a result with items (or an item) has no error. */
  lemma NeverBoth<T, U>(data: Option<seq<T>>, row: Option<T>, error: Option<string>, mapper: T -> Mapped<U>)
    ensures HandleResponse(data, error, mapper).items != [] ==> HandleResponse(data, error, mapper).error == None
    ensures HandleSingleResponse(row, error, mapper).item != None ==> HandleSingleResponse(row, error, mapper).error == None
  {
  }
}
