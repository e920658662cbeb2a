/** Where the two halves meet: the request handler reads rows of the table
    that the ingestion script fills. The similarity search that returns them
    is outside the model; this module only asks what the handler would make
    of a row that carries exactly the columns the script writes. */
module Pipeline {
  import opened Js
  import Chat
  import Embed

  /** The hypothesis of this module, not something the code shows: the
      search hands back a stored row under its own column names. The
      handler also reads `company_route`, `company` and `logo`, which the
      script never writes, so under this hypothesis they are absent. */
  function FromStored(r: Embed.StoredRow): Chat.Match
  {
    Chat.Match(r.title, r.headline, Str(r.price), r.route, Undefined, None, Undefined, Str(r.image))
  }

  /** Such a row never gets an affiliate link: with neither company route
      present, the link is null, the list shows the placeholder, and the
      reply's logo is the stored image when there is one. */
  lemma StoredRowHasNoLink(r: Embed.StoredRow)
    ensures Chat.BuildLink(FromStored(r)) == None
    ensures Chat.LinkText(FromStored(r)) == Chat.NoLink
    ensures Chat.Logo(FromStored(r)) == (if r.image != "" then Str(r.image) else Null)
  {
  }

  /** The same holds for every row the script produces from a catalog. */
  lemma IngestedRowsHaveNoLink(ws: seq<Embed.Whop>, i: nat)
    requires i < |ws|
    ensures var r := Embed.Ingest(ws)[i].row;
            && Chat.BuildLink(FromStored(r)) == None
            && Chat.LinkText(FromStored(r)) == Chat.NoLink
            && Chat.Logo(FromStored(r)) == (if r.image != "" then Str(r.image) else Null)
  {
    StoredRowHasNoLink(Embed.Ingest(ws)[i].row);
  }
}
