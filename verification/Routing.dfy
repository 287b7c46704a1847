/** Routing keys: which user, which session, which of the two sandbox groups. */
module Routing {
  datatype Group = Diagnose | Action

  /** The parts as they are rendered into names; an absent oid or session reads "None". */
  datatype Key = Key(oid: string, session: string, group: Group)
}
