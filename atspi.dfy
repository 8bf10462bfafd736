/**
 * Values shared by the accessible-object cache: object identities, the cache
 * entry record, the payloads carried by bus notifications, and the Python
 * exceptions that a handler can raise.
 */
module Atspi {

  /** An accessible object is named by the bus name of its process and an object path. */
  datatype Identity = Identity(busName: string, path: string)

  /** Path of the desktop root object on the registry. */
  const ROOT_PATH: string := "/org/a11y/atspi/accessible/root"
  /** Path that stands for "no object" (a missing parent or application). */
  const NULL_PATH: string := "/org/a11y/atspi/null"
  /** Interface name every object event arrives on. */
  const EVENT_OBJECT_INTERFACE: string := "org.a11y.atspi.Event.Object"
  /** Capability tags of the synthetic desktop entry. */
  const ACCESSIBLE_INTERFACE: string := "org.a11y.atspi.Accessible"
  const COMPONENT_INTERFACE: string := "org.a11y.atspi.Component"
  /** Role number of the desktop frame in the AT-SPI role enumeration. */
  const ROLE_DESKTOP_FRAME: int := 14

  /**
   * One cached accessible object: the nine fields of an AddAccessible /
   * GetItems tuple, in the order the tuple carries them.  The state is a
   * vector of 32-bit words.
   */
  datatype Entry = Entry(
    reference: Identity,
    application: Identity,
    parent: Identity,
    children: seq<Identity>,
    interfaces: seq<string>,
    name: string,
    role: int,
    description: string,
    state: seq<bv32>)

  /** The cache itself: a dictionary from identity to entry. */
  type Store = map<Identity, Entry>

  /** The reply to a bulk GetItems request: the tuples, or a D-Bus exception. */
  datatype Snapshot = Items(objects: seq<Entry>) | Failed

  /** The tuples a snapshot contributes; a failed request contributes none. */
  function Objects(s: Snapshot): (r: seq<Entry>)
  {
    match s
    case Items(objects) => objects
    case Failed => []
  }

  /** The value carried by a PropertyChange notification. */
  datatype Variant = Str(s: string) | Int(i: int) | Ref(id: Identity)

  /** The Python exceptions the handlers let escape. */
  datatype Error = KeyError | ValueError | IndexError | AttributeError

  /** A handler either finishes with a value or raises. */
  datatype Result<T> = Ok(value: T) | Raised(error: Error)

  /** What a class method reports: it finished, or it raised. */
  datatype Outcome = Done | Threw(error: Error)

  /** Converts a handler result into the outcome a method reports. */
  function OutcomeOf<T>(r: Result<T>): (o: Outcome)
    ensures o.Done? <==> r.Ok?
    ensures r.Raised? ==> o.error == r.error
  {
    match r
    case Ok(_) => Done
    case Raised(e) => Threw(e)
  }

  /** Python's str.startswith. */
  predicate StartsWith(s: string, prefix: string): (b: bool)
    ensures b <==> |prefix| <= |s| && forall i :: 0 <= i < |prefix| ==> s[i] == prefix[i]
    ensures b ==> s == prefix + s[|prefix|..]
  {
    |prefix| <= |s| && s[..|prefix|] == prefix
  }
}
