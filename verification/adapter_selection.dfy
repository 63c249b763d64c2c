/**
  Start-up selection of the storage adapter from the `PERSISTENCE`
  configuration value. Exactly four case-sensitive settings are recognised;
  anything else, including an absent value, leaves the adapter unset.
 */
module AdapterSelection {

  datatype Option<T> = None | Some(value: T)

  /** The four storage adapters. The cloud-document and NoSQL adapters take a
      flag that toggles their initialisation mode. */
  datatype AdapterKind =
    | Archivo
    | Firebase(initialize: bool)
    | MongoDB(initialize: bool)
    | Memoria

  /** The configuration value that selects each adapter. */
  function SettingName(kind: AdapterKind): string
  {
    match kind
    case Archivo => "ARCHIVO"
    case Firebase(_) => "FIREBASE"
    case MongoDB(_) => "MONGODB"
    case Memoria => "MEMORIA"
  }

  const RecognizedSettings: set<string> := {"ARCHIVO", "FIREBASE", "MONGODB", "MEMORIA"}

  /** An adapter as the selector builds it: the flagged adapters are always
      constructed with the flag set. */
  predicate AsConstructed(kind: AdapterKind)
  {
    (kind.Firebase? || kind.MongoDB?) ==> kind.initialize
  }

  /** The if/else-if chain over `process.env.PERSISTENCE`; `None` stands for an
      unset adapter. */
  function SelectAdapter(persistence: Option<string>): (r: Option<AdapterKind>)
    ensures r.Some? <==> persistence.Some? && persistence.value in RecognizedSettings
    ensures r.Some? ==> persistence == Some(SettingName(r.value)) && AsConstructed(r.value)
  {
    if persistence == Some("ARCHIVO") then Some(Archivo)
    else if persistence == Some("FIREBASE") then Some(Firebase(true))
    else if persistence == Some("MONGODB") then Some(MongoDB(true))
    else if persistence == Some("MEMORIA") then Some(Memoria)
    else None
  }

  /** Selection inverts `SettingName`: each adapter, as the selector builds it,
      is selected by its own setting and by no other. */
  lemma SelectionRoundTrip(kind: AdapterKind, setting: string)
    requires AsConstructed(kind)
    ensures SelectAdapter(Some(setting)) == Some(kind) <==> setting == SettingName(kind)
  {
  }

  /** Matching is exact: the recognised settings are spelled in capitals
      only, so any setting holding a lower-case letter selects nothing, and
      neither does an absent setting. */
  lemma SelectionIsCaseSensitive(setting: string, i: int)
    requires 0 <= i < |setting| && 'a' <= setting[i] <= 'z'
    ensures SelectAdapter(Some(setting)) == None
    ensures SelectAdapter(None) == None
  {
  }
}
