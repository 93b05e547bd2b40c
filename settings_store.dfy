/** The persisted settings record and the field-by-field merge `set` applies. */
module SettingsStore {
  import opened Wrappers

  /** The contents of `settings.ron`: the current boat, if one is set. */
  datatype Settings = Settings(boat: Option<string>)

  /** The settings `set` writes when a settings file was loaded: an incoming
      boat replaces the stored one, an absent one keeps it. */
  function Merge(stored: Settings, incoming: Settings): (merged: Settings)
    ensures incoming.boat.Some? ==> merged.boat == incoming.boat
    ensures incoming.boat.None? ==> merged == stored
  {
    Settings(if incoming.boat.Some? then incoming.boat else stored.boat)
  }

  /** Merging the same incoming settings a second time changes nothing. */
  lemma MergeIdempotent(stored: Settings, incoming: Settings)
    ensures Merge(Merge(stored, incoming), incoming) == Merge(stored, incoming)
  {
  }

  /** A stored boat never becomes no boat through a merge. */
  lemma MergeNeverErases(stored: Settings, incoming: Settings)
    requires stored.boat.Some?
    ensures Merge(stored, incoming).boat.Some?
  {
  }
}
