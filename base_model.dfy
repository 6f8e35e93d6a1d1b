/** The columns every table shares: the soft-delete flag and its timestamp. */
module BaseModel {
  import opened Wrappers
  import Tables

  /** `is_active` and `deleted_at` of a row. */
  datatype Lifecycle = Lifecycle(isActive: bool, deletedAt: Option<int>)

  /** A new row: active, never deleted. */
  function Fresh(): (l: Lifecycle)
    ensures l.isActive && l.deletedAt.None?
  {
    Lifecycle(true, None)
  }

  /** `soft_delete()` at instant `now`. */
  function SoftDeleted(l: Lifecycle, now: int): (r: Lifecycle)
    ensures !r.isActive && r.deletedAt == Some(now)
  {
    l.(isActive := false, deletedAt := Some(now))
  }

  /** `restore()`. */
  function Restored(l: Lifecycle): (r: Lifecycle)
    ensures r.isActive && r.deletedAt.None?
  {
    l.(isActive := true, deletedAt := None)
  }

  /** Restoring a soft-deleted row gives back a fresh row, whatever it was before. */
  lemma RestoreAfterSoftDelete(l: Lifecycle, now: int)
    ensures Restored(SoftDeleted(l, now)) == Fresh()
  {
  }

  /** `get_active()`: the rows whose `is_active` holds, in table order. */
  function GetActive<T>(rows: seq<T>, life: T -> Lifecycle): (r: seq<T>)
    ensures forall i :: 0 <= i < |r| ==> r[i] in rows && life(r[i]).isActive
    ensures forall i :: 0 <= i < |rows| && life(rows[i]).isActive ==> rows[i] in r
  {
    Tables.Filter(rows, (x: T) => life(x).isActive)
  }
}
