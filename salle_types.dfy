/** The room ("salle") records exchanged with the `/salles` resource. The
    source's field `type` is called `salleType` here (`type` is a Dafny
    keyword). */
module SalleTypes {
  import opened Wrappers

  datatype Salle = Salle(
    id: int,
    nom: string,
    capacite: int,
    salleType: string,
    disponible: bool,
    createdAt: Option<string>,
    updatedAt: Option<string>)

  /** The four mutable fields, as the room form sends them for both a
      creation and an update. */
  datatype SalleData = SalleData(nom: string, capacite: int, salleType: string, disponible: bool)

  /** The mutable fields of a stored room. */
  function DataOf(s: Salle): SalleData {
    SalleData(s.nom, s.capacite, s.salleType, s.disponible)
  }
}
