/** Dataset handles: a concrete store, possibly behind decorator layers. */
module Datasets {

  /** The two storage-engine generations a filter can be compiled for. */
  datatype Engine = TDB1 | TDB2

  datatype Handle =
    | AccessControl(wrapped: Handle)   // access-control decoration, stripped before dispatch
    | Switchable(current: Handle)      // hot-swap indirection, never stripped
    | Tdb1Database(id: nat)
    | Tdb2Database(id: nat)
    | OtherStore(className: string)

  /** Number of access-control layers on the outside of `h`. */
  function AccessControlDepth(h: Handle): nat
  {
    if h.AccessControl? then 1 + AccessControlDepth(h.wrapped) else 0
  }

  /** `h` wrapped in `n` further access-control layers. */
  function Wrap(n: nat, h: Handle): (r: Handle)
    ensures AccessControlDepth(r) == n + AccessControlDepth(h)
  {
    if n == 0 then h else AccessControl(Wrap(n - 1, h))
  }

  /** Strip the access-control layers and nothing else: the result is not an
      access-control layer, and re-wrapping it as many times as were removed
      gives back the original handle. */
  function Unwrap(h: Handle): (r: Handle)
    ensures !r.AccessControl?
    ensures Wrap(AccessControlDepth(h), r) == h
  {
    match h
    case AccessControl(inner) => Unwrap(inner)
    case _ => h
  }

  /** The TDB1 test: only the database itself is recognised, never a handle
      that still carries a wrapper layer. */
  function IsTDB1(h: Handle): (b: bool)
    ensures b ==> Unwrap(h) == h && !h.Switchable?
    ensures h.Tdb1Database? ==> b
    ensures h.Tdb2Database? || h.OtherStore? ==> !b
  {
    h.Tdb1Database?
  }

  /** The TDB2 test: a TDB2 database, or the switchable layer a TDB2 database
      sits behind, which is recognised as it is and not looked through any
      further. The two engine tests never both hold. */
  function IsTDB2(h: Handle): (b: bool)
    ensures b ==> Unwrap(h) == h && !IsTDB1(h)
    ensures h.Tdb2Database? ==> b
    ensures h.OtherStore? ==> !b
    ensures h.Switchable? ==> (b <==> IsTDB2(h.current) && !h.current.Switchable?)
  {
    h.Tdb2Database? || (h.Switchable? && h.current.Tdb2Database?)
  }

  /** The simple class name a handle reports in diagnostics: a store of an
      unknown class reports that class verbatim, and a wrapper layer never
      reports the name of what it wraps. */
  function SimpleClassName(h: Handle): (name: string)
    ensures h.OtherStore? ==> name == h.className
    ensures h.Switchable? ==> name == "DatasetGraphSwitchable"
    ensures h.AccessControl? ==> name == "DatasetGraphAccessControl"
  {
    match h
    case AccessControl(_) => "DatasetGraphAccessControl"
    case Switchable(_) => "DatasetGraphSwitchable"
    case Tdb1Database(_) => "TDB1 database"
    case Tdb2Database(_) => "TDB2 database"
    case OtherStore(c) => c
  }
}
