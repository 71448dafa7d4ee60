// The publication list of a notification (publication/publication.go).
module Publication {

  const PINK_FT := "88fdde6c-2aa4-4f78-af02-9f680097cfd6"

  datatype PublicationError = EmptyPubList | MoreThanOne

  datatype Chosen = Only(uuid: string) | Rejected(error: PublicationError)

  /** The one publication a policy is asked about: Pink when listed, else the only entry. */
  function OnlyOneOrPink(uuids: seq<string>): (r: Chosen)
    ensures r.Only? <==> PINK_FT in uuids || |uuids| == 1
    ensures r.Only? ==> r.uuid in uuids && (PINK_FT in uuids ==> r.uuid == PINK_FT)
    ensures r == Rejected(EmptyPubList) <==> uuids == []
  {
    if PINK_FT in uuids then Only(PINK_FT)
    else if |uuids| == 0 then Rejected(EmptyPubList)
    else if |uuids| == 1 then Only(uuids[0])
    else Rejected(MoreThanOne)
  }
}
