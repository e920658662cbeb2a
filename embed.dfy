/** The catalog-ingestion script: for every raw catalog record, the text
    that is sent to the embedding model and the row that is upserted into
    the `whop_embeddings` table. */
module Embed {
  import opened Js
  import opened Text

  /** An image object; only its URL is read. */
  datatype Image = Image(sourceUrl: Value)

  /** The record's default pricing plan; only its price tag is read. */
  datatype Plan = Plan(priceTag: Value)

  /** The company that sells a product. */
  datatype Company = Company(industryType: Value, businessType: Value, logo: Option<Image>)

  /** A raw catalog record as read from the catalog file. A nested object
      that is missing or `null` is `None`: optional chaining yields
      `undefined` for both. */
  datatype Whop = Whop(
    id: Value,
    title: Value,
    headline: Value,
    description: Value,
    route: Value,
    company: Option<Company>,
    defaultPlan: Option<Plan>,
    logo: Option<Image>)

  /** `w.company?.industryType` */
  function Industry(w: Whop): Value
  {
    match w.company
    case None => Undefined
    case Some(c) => c.industryType
  }

  /** `w.company?.businessType` */
  function Business(w: Whop): Value
  {
    match w.company
    case None => Undefined
    case Some(c) => c.businessType
  }

  /** `w.defaultPlan?.priceTag` */
  function PriceTag(w: Whop): Value
  {
    match w.defaultPlan
    case None => Undefined
    case Some(p) => p.priceTag
  }

  /** `w.logo?.sourceUrl` */
  function LogoUrl(w: Whop): Value
  {
    match w.logo
    case None => Undefined
    case Some(i) => i.sourceUrl
  }

  /** `w.company?.logo?.sourceUrl` */
  function CompanyLogoUrl(w: Whop): Value
  {
    match w.company
    case None => Undefined
    case Some(c) =>
      match c.logo
      case None => Undefined
      case Some(i) => i.sourceUrl
  }

  const CategoryLabel := "Category: "
  const TypeLabel := "Type: "

  /** `text`: the embedding input, five lines separated by newlines. */
  function EmbeddingText(w: Whop): string
  {
    OrElse(w.title, "") + "\n" +
    OrElse(w.headline, "") + "\n" +
    OrElse(w.description, "") + "\n" +
    (CategoryLabel + OrElse(Industry(w), "")) + "\n" +
    (TypeLabel + OrElse(Business(w), ""))
  }

  /** The five lines of the embedding input, in their fixed order: title,
      headline, description, the labelled industry and the labelled
      business type. A missing or empty field leaves its place empty; the
      two labels are always there. */
  function Segments(w: Whop): (segs: seq<string>)
    ensures |segs| == 5
    ensures segs[0] == (if Truthy(w.title) then w.title.s else "")
    ensures segs[1] == (if Truthy(w.headline) then w.headline.s else "")
    ensures segs[2] == (if Truthy(w.description) then w.description.s else "")
    ensures w.company.None? ==> segs[3] == CategoryLabel && segs[4] == TypeLabel
    ensures w.company.Some? ==>
              var c := w.company.value;
              && segs[3] == CategoryLabel + (if Truthy(c.industryType) then c.industryType.s else "")
              && segs[4] == TypeLabel + (if Truthy(c.businessType) then c.businessType.s else "")
  {
    [ OrElse(w.title, ""),
      OrElse(w.headline, ""),
      OrElse(w.description, ""),
      CategoryLabel + OrElse(Industry(w), ""),
      TypeLabel + OrElse(Business(w), "") ]
  }

  /** The embedding input is its five segments joined by newlines. */
  lemma EmbeddingTextShape(w: Whop)
    ensures EmbeddingText(w) == Join(Segments(w), "\n")
  {
    JoinFive(OrElse(w.title, ""), OrElse(w.headline, ""), OrElse(w.description, ""),
             CategoryLabel + OrElse(Industry(w), ""), TypeLabel + OrElse(Business(w), ""), "\n");
  }

  /** When no field holds a newline, splitting the embedding input on
      newlines gives back exactly its five segments. */
  lemma EmbeddingTextSplits(w: Whop)
    requires '\n' !in OrElse(w.title, "") && '\n' !in OrElse(w.headline, "")
    requires '\n' !in OrElse(w.description, "")
    requires '\n' !in OrElse(Industry(w), "") && '\n' !in OrElse(Business(w), "")
    ensures Split(EmbeddingText(w), '\n') == Segments(w)
  {
    var segs := Segments(w);
    assert forall k :: 0 <= k < |segs| ==> '\n' !in segs[k];
    EmbeddingTextShape(w);
    SplitJoin(segs, '\n');
  }

  /** The columns of one `whop_embeddings` row, without the vector. */
  datatype StoredRow = StoredRow(
    id: Value,
    title: Value,
    headline: Value,
    description: Value,
    price: string,
    image: string,
    route: Value)

  /** The upserted object: identity, texts and route copied as they are;
      the price is the default plan's price tag, else ""; the image is the
      record's logo URL, else the company's logo URL, else "". */
  function ToRow(w: Whop): (row: StoredRow)
    ensures row.id == w.id && row.route == w.route
    ensures row.title == w.title && row.headline == w.headline && row.description == w.description
    ensures w.defaultPlan.Some? && Truthy(w.defaultPlan.value.priceTag) ==>
              row.price == w.defaultPlan.value.priceTag.s
    ensures !(w.defaultPlan.Some? && Truthy(w.defaultPlan.value.priceTag)) ==> row.price == ""
    ensures w.logo.Some? && Truthy(w.logo.value.sourceUrl) ==> row.image == w.logo.value.sourceUrl.s
    ensures !(w.logo.Some? && Truthy(w.logo.value.sourceUrl)) ==>
              if w.company.Some? && w.company.value.logo.Some? && Truthy(w.company.value.logo.value.sourceUrl)
              then row.image == w.company.value.logo.value.sourceUrl.s
              else row.image == ""
  {
    StoredRow(
      w.id, w.title, w.headline, w.description,
      OrElse(PriceTag(w), ""),
      OrElse(Or(LogoUrl(w), CompanyLogoUrl(w)), ""),
      w.route)
  }

  /** The stored row and the embedding input describe the same record:
      when title, headline and description hold no newline, the first three
      lines of the input are the row's title, headline and description, with
      "" for a missing one, whatever the industry and business type hold. */
  lemma RowAgreesWithText(w: Whop)
    requires '\n' !in OrElse(w.title, "") && '\n' !in OrElse(w.headline, "")
    requires '\n' !in OrElse(w.description, "")
    ensures var lines := Split(EmbeddingText(w), '\n');
            var row := ToRow(w);
            && |lines| >= 4
            && lines[0] == OrElse(row.title, "")
            && lines[1] == OrElse(row.headline, "")
            && lines[2] == OrElse(row.description, "")
  {
    var t, h, d := OrElse(w.title, ""), OrElse(w.headline, ""), OrElse(w.description, "");
    var rest := (CategoryLabel + OrElse(Industry(w), "")) + "\n" + (TypeLabel + OrElse(Business(w), ""));
    assert EmbeddingText(w) == t + ['\n'] + (h + ['\n'] + (d + ['\n'] + rest));
    SplitAtFirst(d, rest, '\n');
    SplitAtFirst(h, d + ['\n'] + rest, '\n');
    SplitAtFirst(t, h + ['\n'] + (d + ['\n'] + rest), '\n');
  }

  /** What one turn of the ingestion loop sends: the embedding input and
      the row that is upserted with the resulting vector. */
  datatype Upsert = Upsert(input: string, row: StoredRow)

  /** The ingestion loop, one upsert per record in input order, each keyed
      by the record's id. */
  function Ingest(ws: seq<Whop>): (us: seq<Upsert>)
    ensures |us| == |ws|
    ensures forall i :: 0 <= i < |ws| ==>
              us[i].input == EmbeddingText(ws[i]) && us[i].row == ToRow(ws[i]) && us[i].row.id == ws[i].id
  {
    if |ws| == 0 then [] else [Upsert(EmbeddingText(ws[0]), ToRow(ws[0]))] + Ingest(ws[1..])
  }

  /** Ingesting two catalogs one after the other sends the upserts of the
      first, then those of the second. */
  lemma {:induction false} IngestAppend(a: seq<Whop>, b: seq<Whop>)
    ensures Ingest(a + b) == Ingest(a) + Ingest(b)
  {
    if |a| == 0 {
      assert a + b == b;
    } else {
      assert (a + b)[1..] == a[1..] + b;
      IngestAppend(a[1..], b);
    }
  }
}
