/** The one record the tool defines itself: a row of a framework table. */
module Models {

  /** The Swift field `type` is called `kind` here, `type` being a Dafny keyword. */
  datatype FrameworkInfo = FrameworkInfo(name: string, kind: string, isEmbedded: string, count: int)

  /** `init(name:count:)`: a row of the duplicates table, with no type and no
      embedding status. */
  function Counted(name: string, count: int): (r: FrameworkInfo)
    ensures r.name == name && r.count == count
    ensures r.kind == "" && r.isEmbedded == ""
  {
    FrameworkInfo(name, "", "", count)
  }

  /** `init(name:type:isEmbedded:)`: a row of the listing, which always counts one. */
  function Classified(name: string, kind: string, isEmbedded: string): (r: FrameworkInfo)
    ensures r.name == name && r.kind == kind && r.isEmbedded == isEmbedded
    ensures r.count == 1
  {
    FrameworkInfo(name, kind, isEmbedded, 1)
  }

  /** The two initialisers build the same row only for a count of one and an empty
      type and status. */
  lemma InitialisersAgree(name: string, count: int, name': string, kind: string, isEmbedded: string)
    ensures Counted(name, count) == Classified(name', kind, isEmbedded)
        <==> name == name' && count == 1 && kind == "" && isEmbedded == ""
  {
  }
}
