/** The deterministic part of the chat handler: the affiliate link builder,
    the numbered product list shown to the model, the grounded prompt and
    the structured projection of the matches returned to the caller. */
module Chat {
  import opened Js
  import opened Text

  /** The affiliate username carried by every constructed link. */
  const AffiliateUser := "wapify"
  const LinkBase := "https://whop.com/"
  const AffiliateQuery := "?a=" + AffiliateUser

  /** The nested `company` object a row may carry. */
  datatype Company = Company(route: Value)

  /** A row returned by the `match_whops` search, with the fields the
      handler reads. `companyRoute` is the row's `company_route`. */
  datatype Match = Match(
    title: Value,
    headline: Value,
    price: Value,
    route: Value,
    companyRoute: Value,
    company: Option<Company>,
    logo: Value,
    image: Value)

  /** `m.company?.route`: undefined when there is no company object. */
  function NestedRoute(m: Match): Value
  {
    match m.company
    case None => Undefined
    case Some(c) => c.route
  }

  /** `m.company_route || m.company?.route || ""` */
  function CompanyRoute(m: Match): string
  {
    OrElse(Or(m.companyRoute, NestedRoute(m)), "")
  }

  /** `m.route || ""` */
  function ProductRoute(m: Match): string
  {
    OrElse(m.route, "")
  }

  /** `buildLink`: no link unless both routes are present and non-empty; the
      row's own `company_route` wins over the nested company's route; a link
      is the whop.com URL of the product tagged with the affiliate id. */
  function BuildLink(m: Match): (link: Option<string>)
    ensures link == None <==>
              (!Truthy(m.companyRoute) && !Truthy(NestedRoute(m))) || !Truthy(m.route)
    ensures Truthy(m.companyRoute) && Truthy(m.route) ==>
              link == Some(LinkBase + m.companyRoute.s + "/" + m.route.s + "?a=" + AffiliateUser)
    ensures !Truthy(m.companyRoute) && Truthy(NestedRoute(m)) && Truthy(m.route) ==>
              link == Some(LinkBase + NestedRoute(m).s + "/" + m.route.s + "?a=" + AffiliateUser)
  {
    var companyRoute := CompanyRoute(m);
    var productRoute := ProductRoute(m);
    if companyRoute == "" || productRoute == "" then None
    else Some(LinkBase + companyRoute + "/" + productRoute + "?a=" + AffiliateUser)
  }

  /** Reads the company route and the product route back out of an
      affiliate link; the company route ends at the first '/'. */
  function ParseLink(url: string): Option<(string, string)>
  {
    if |url| >= |LinkBase| + |AffiliateQuery|
       && url[..|LinkBase|] == LinkBase
       && url[|url| - |AffiliateQuery|..] == AffiliateQuery
    then
      var pieces := Split(url[|LinkBase|..|url| - |AffiliateQuery|], '/');
      if |pieces| >= 2 then Some((pieces[0], Join(pieces[1..], "/"))) else None
    else None
  }

  /** A built link determines both routes it was built from, provided the
      company route is a single path segment. */
  lemma LinkRoundTrip(m: Match)
    requires BuildLink(m).Some?
    requires '/' !in CompanyRoute(m)
    ensures ParseLink(BuildLink(m).value) == Some((CompanyRoute(m), ProductRoute(m)))
  {
    var c, p := CompanyRoute(m), ProductRoute(m);
    Frame(LinkBase, c, "/", p, "?a=", AffiliateUser);
    SplitAtFirst(c, p, '/');
    JoinSplit(p, '/');
  }

  const NoHeadline := "No headline"
  const NoPrice := "N/A"
  const NoLink := "Link unavailable"

  /** `m.headline || "No headline"` */
  function HeadlineText(m: Match): string
  {
    OrElse(m.headline, NoHeadline)
  }

  /** `m.price || "N/A"` */
  function PriceText(m: Match): string
  {
    OrElse(m.price, NoPrice)
  }

  /** `buildLink(m) || "Link unavailable"` */
  function LinkText(m: Match): string
  {
    OrElse(FromOption(BuildLink(m)), NoLink)
  }

  /** The text of one entry of the product list: its number and title,
      then the headline, price and affiliate-link lines, each ended by a
      newline. */
  function Entry(number: string, title: string, headline: string, price: string, link: string): string
  {
    number + ". " + title + "\n" +
    "Headline: " + headline + "\n" +
    "Price: " + price + "\n" +
    "Affiliate Link: " + link + "\n"
  }

  /** The lines of an entry, in their fixed order; the entry ends with a
      newline, hence the empty last piece. */
  function EntryLines(number: string, title: string, headline: string, price: string, link: string): seq<string>
  {
    [ number + ". " + title,
      "Headline: " + headline,
      "Price: " + price,
      "Affiliate Link: " + link,
      "" ]
  }

  /** The text block for the match at zero-based position `i`. */
  function Block(i: nat, m: Match): string
  {
    Entry(Decimal(i + 1), Interpolate(m.title), HeadlineText(m), PriceText(m), LinkText(m))
  }

  /** The lines of the block for the match at position `i`. */
  function BlockLines(i: nat, m: Match): seq<string>
  {
    EntryLines(Decimal(i + 1), Interpolate(m.title), HeadlineText(m), PriceText(m), LinkText(m))
  }

  /** Every value line of a block is filled in: a missing headline, price or
      link shows its placeholder, and a built link is shown as it is. */
  lemma NoBlankValues(m: Match)
    ensures HeadlineText(m) != "" && PriceText(m) != "" && LinkText(m) != ""
    ensures HeadlineText(m) == (if Truthy(m.headline) then m.headline.s else "No headline")
    ensures PriceText(m) == (if Truthy(m.price) then m.price.s else "N/A")
    ensures LinkText(m) == (if BuildLink(m).Some? then BuildLink(m).value else "Link unavailable")
  {
  }

  /** An entry is its four lines, each ended by a newline. */
  lemma EntryShape(number: string, title: string, headline: string, price: string, link: string)
    ensures Entry(number, title, headline, price, link)
         == Join(EntryLines(number, title, headline, price, link), "\n")
  {
    var e := Entry(number, title, headline, price, link);
    JoinFive(number + ". " + title, "Headline: " + headline, "Price: " + price,
             "Affiliate Link: " + link, "", "\n");
    assert e + "" == e;
  }

  /** When no value holds a newline, splitting an entry into lines gives
      exactly its lines, in their fixed order. */
  lemma EntrySplitsIntoLines(number: string, title: string, headline: string, price: string, link: string)
    requires '\n' !in number && '\n' !in title && '\n' !in headline
    requires '\n' !in price && '\n' !in link
    ensures Split(Entry(number, title, headline, price, link), '\n')
         == EntryLines(number, title, headline, price, link)
  {
    var ls := EntryLines(number, title, headline, price, link);
    assert forall k :: 0 <= k < |ls| ==> '\n' !in ls[k];
    EntryShape(number, title, headline, price, link);
    SplitJoin(ls, '\n');
  }

  /** When no value holds a newline, splitting a block into lines gives
      exactly its lines: number and title, headline, price, affiliate link. */
  lemma BlockSplitsIntoLines(i: nat, m: Match)
    requires '\n' !in Interpolate(m.title) && '\n' !in HeadlineText(m)
    requires '\n' !in PriceText(m) && '\n' !in LinkText(m)
    ensures Split(Block(i, m), '\n') == BlockLines(i, m)
  {
    assert !IsDigit('\n');
    EntrySplitsIntoLines(Decimal(i + 1), Interpolate(m.title), HeadlineText(m), PriceText(m), LinkText(m));
  }

  /** `text` opens with `head`. */
  predicate StartsWith(text: string, head: string)
  {
    |head| <= |text| && text[..|head|] == head
  }

  /** An entry opens with its number, ". ", the title and a newline. */
  lemma EntryOpens(number: string, title: string, headline: string, price: string, link: string)
    ensures StartsWith(Entry(number, title, headline, price, link), number + ". " + title + "\n")
  {
    var head := number + ". " + title + "\n";
    var e := Entry(number, title, headline, price, link);
    assert e == head + ("Headline: " + headline + "\n" + "Price: " + price + "\n" + "Affiliate Link: " + link + "\n");
  }

  /** The first line of the block for match `i`, with its newline. */
  function Heading(i: nat, m: Match): string
  {
    Decimal(i + 1) + ". " + Interpolate(m.title) + "\n"
  }

  /** Proof of the numbering clause of `Blocks`. */
  lemma BlocksNumbered(ms: seq<Match>)
    ensures forall i :: 0 <= i < |ms| ==> StartsWith(Block(i, ms[i]), Heading(i, ms[i]))
  {
    forall i | 0 <= i < |ms|
      ensures StartsWith(Block(i, ms[i]), Heading(i, ms[i]))
    {
      EntryOpens(Decimal(i + 1), Interpolate(ms[i].title), HeadlineText(ms[i]), PriceText(ms[i]), LinkText(ms[i]));
    }
  }

  /** The blocks of all matches: one per match, in match order, block `i`
      opening with the number `i + 1`, ". ", the title and a newline. */
  function Blocks(ms: seq<Match>): (bs: seq<string>)
    ensures |bs| == |ms|
    ensures forall i :: 0 <= i < |ms| ==> bs[i] == Block(i, ms[i])
    ensures forall i :: 0 <= i < |ms| ==> StartsWith(bs[i], Heading(i, ms[i]))
  {
    BlocksNumbered(ms);
    seq(|ms|, i requires 0 <= i < |ms| => Block(i, ms[i]))
  }

  /** `productList`: the blocks joined by newlines. */
  function ProductList(ms: seq<Match>): string
  {
    Join(Blocks(ms), "\n")
  }

  /** The product list holds block `i` at Offset(Blocks(ms), "\n", i),
      then a newline and the next block, or its end for the last match. */
  lemma ProductListLayout(ms: seq<Match>, i: nat)
    requires i < |ms|
    ensures var bs := Blocks(ms);
            var at := Offset(bs, "\n", i);
            && bs[i] == Block(i, ms[i])
            && at + |bs[i]| <= |ProductList(ms)|
            && ProductList(ms)[at..at + |bs[i]|] == bs[i]
            && (i + 1 < |ms| ==>
                 Offset(bs, "\n", i + 1) == at + |bs[i]| + 1 &&
                 Offset(bs, "\n", i + 1) <= |ProductList(ms)| &&
                 ProductList(ms)[at + |bs[i]|..Offset(bs, "\n", i + 1)] == "\n")
            && (i + 1 == |ms| ==> |ProductList(ms)| == at + |bs[i]|)
  {
    JoinLayout(Blocks(ms), "\n", i);
  }

  /** The fixed text of a prompt template around its two holes, the user
      message (put between double quotes) and the product list. */
  datatype Template = Template(
    intro: string,
    grounding: string,
    instructions: string,
    header: string,
    closing: string)

  /** Index of the opening quote before the user message. */
  function QuoteAt(t: Template): nat
  {
    |t.intro| + |t.grounding| + |t.instructions|
  }

  /** Index at which the product list starts. */
  function ListAt(t: Template, message: string): nat
  {
    QuoteAt(t) + 1 + |message| + 1 + |t.header|
  }

  /** The template with its holes filled: the grounding sentence, the
      message verbatim between double quotes and the product list each sit
      at a position fixed by the template and the message length. */
  function Fill(t: Template, message: string, productList: string): (p: string)
    ensures |p| == ListAt(t, message) + |productList| + |t.closing|
    ensures p[|t.intro|..|t.intro| + |t.grounding|] == t.grounding
    ensures p[QuoteAt(t)] == '"' && p[QuoteAt(t) + 1 + |message|] == '"'
    ensures p[QuoteAt(t) + 1..QuoteAt(t) + 1 + |message|] == message
    ensures p[ListAt(t, message)..ListAt(t, message) + |productList|] == productList
  {
    t.intro + t.grounding + t.instructions + "\"" + message + "\"" + t.header + productList + t.closing
  }

  const Intro := "\nYou are Whopify\U{2019}s AI affiliate recommender.\n\n"
  /** The grounding sentence: the model must use only the listed products. */
  const Grounding := "Use ONLY the Whop products provided below \U{2014} do NOT invent or mention products that are not in the list."
  const Instructions := "\nEach product includes an affiliate link (which must be used exactly as provided).\n\nUser message:\n"
  const ListHeader := "\n\nRelevant Whop products:\n"
  const Closing :=
    "\n\nWrite a rich, friendly, persuasive recommendation that:\n" +
    "- Clearly mentions 2\U{2013}3 of the best fits for the user's goal\n" +
    "- Explains *why* each course or tool is valuable\n" +
    "- Includes the provided affiliate links using markdown ([Title](URL))\n" +
    "- Avoids generic or made-up products\n" +
    "- Uses a warm, helpful tone (not overly salesy)\n" +
    "- Adds emoji for visual appeal\n"

  /** The template literal of the handler. */
  const PromptTemplate := Template(Intro, Grounding, Instructions, ListHeader, Closing)

  /** `prompt`: always carries the grounding sentence right after the
      opening line, the user message verbatim between double quotes, and the
      product list. */
  function Prompt(message: string, productList: string): string
  {
    Fill(PromptTemplate, message, productList)
  }

  /** The handler's prompt carries the grounding sentence right after the
      opening line, the user message verbatim between double quotes, and
      the product list, whatever the message and the list are. */
  lemma PromptCarries(message: string, productList: string)
    ensures var p := Prompt(message, productList);
            var q := QuoteAt(PromptTemplate);
            var l := ListAt(PromptTemplate, message);
            && |Intro| + |Grounding| <= q
            && l + |productList| <= |p|
            && p[|Intro|..|Intro| + |Grounding|] == Grounding
            && p[q] == '"' && p[q + 1 + |message|] == '"'
            && p[q + 1..q + 1 + |message|] == message
            && p[l..l + |productList|] == productList
  {
    var t := PromptTemplate;
    assert t.intro == Intro && t.grounding == Grounding;
    var p := Fill(t, message, productList);
  }

  /** One entry of the `matches` array of the reply. */
  datatype Enriched = Enriched(
    title: Value,
    headline: Value,
    price: Value,
    link: Option<string>,
    logo: Value)

  /** `m.logo || m.image || null` */
  function Logo(m: Match): (logo: Value)
    ensures Truthy(m.logo) ==> logo == m.logo
    ensures !Truthy(m.logo) && Truthy(m.image) ==> logo == m.image
    ensures !Truthy(m.logo) && !Truthy(m.image) ==> logo == Null
  {
    Or(Or(m.logo, m.image), Null)
  }

  function Enrich(m: Match): Enriched
  {
    Enriched(m.title, m.headline, m.price, BuildLink(m), Logo(m))
  }

  /** `enrichedMatches`: one entry per match in match order; title, headline
      and price are passed through unchanged (no placeholders), the link is
      that of `buildLink` (possibly null) and the logo falls back to the image. */
  function EnrichAll(ms: seq<Match>): (es: seq<Enriched>)
    ensures |es| == |ms|
    ensures forall i :: 0 <= i < |ms| ==>
              && es[i].title == ms[i].title
              && es[i].headline == ms[i].headline
              && es[i].price == ms[i].price
              && es[i].link == BuildLink(ms[i])
              && es[i].logo == Logo(ms[i])
  {
    if |ms| == 0 then [] else [Enrich(ms[0])] + EnrichAll(ms[1..])
  }

  /** The link of a reply entry as the product list shows it. */
  function LinkShown(e: Enriched): string
  {
    match e.link
    case None => NoLink
    case Some(u) => u
  }

  /** Entry `i` of the structured reply, read back as a product-list entry. */
  function ProseOf(i: nat, e: Enriched): string
  {
    Entry(Decimal(i + 1), Interpolate(e.title), OrElse(e.headline, NoHeadline), OrElse(e.price, NoPrice), LinkShown(e))
  }

  /** Entry `i` of the structured reply, read as text, is the block the
      prompt shows for match `i`. */
  lemma ProseAgrees(ms: seq<Match>, i: nat)
    requires i < |ms|
    ensures ProseOf(i, EnrichAll(ms)[i]) == Block(i, ms[i])
  {
    var e := EnrichAll(ms)[i];
    NoBlankValues(ms[i]);
    assert LinkShown(e) == LinkText(ms[i]);
  }

  /** Every block of the product list appears in a filled template at the
      list's position plus the block's offset. */
  lemma FillShowsBlocks(t: Template, message: string, matches: seq<Match>)
    ensures ShowsParts(Fill(t, message, ProductList(matches)), ListAt(t, message), Blocks(matches), "\n")
  {
    JoinPartsInside(Fill(t, message, ProductList(matches)), ListAt(t, message), Blocks(matches), "\n");
  }

  /** Every entry of the projection, read as text, is the block of the same
      match. */
  lemma ProjectionReadsAsBlocks(matches: seq<Match>)
    ensures forall i :: 0 <= i < |matches| ==> ProseOf(i, EnrichAll(matches)[i]) == Blocks(matches)[i]
  {
    forall i | 0 <= i < |matches|
      ensures ProseOf(i, EnrichAll(matches)[i]) == Blocks(matches)[i]
    {
      ProseAgrees(matches, i);
    }
  }

  /** The body the handler sends back with status 200. */
  datatype Reply = Reply(response: string, matches: seq<Enriched>)

  /** The handler after the search: the list and prompt are built from
      `matches` whatever their number (even none), the model is asked once
      and its text goes back unchanged. The structured part has one entry
      per match, in match order, and entry `i`, read as text, is the block
      that the prompt given to the model shows at the list's position plus
      the block's offset: the prose the model saw and the data returned
      describe the same rows in the same order. `generate` stands for the
      chat-completion call. */
  function Respond(message: string, matches: seq<Match>, generate: string -> string): (r: Reply)
    ensures r.response == generate(Prompt(message, ProductList(matches)))
    ensures r.matches == EnrichAll(matches)
    ensures forall i :: 0 <= i < |matches| ==> ProseOf(i, r.matches[i]) == Blocks(matches)[i]
    ensures ShowsParts(Prompt(message, ProductList(matches)), ListAt(PromptTemplate, message), Blocks(matches), "\n")
  {
    FillShowsBlocks(PromptTemplate, message, matches);
    ProjectionReadsAsBlocks(matches);
    var prompt := Prompt(message, ProductList(matches));
    Reply(generate(prompt), EnrichAll(matches))
  }

  /** With no matches the handler still asks the model, over an empty list,
      and returns an empty `matches` array. */
  lemma NoMatchesStillGenerates(message: string, generate: string -> string)
    ensures Respond(message, [], generate) == Reply(generate(Prompt(message, "")), [])
  {
    assert Blocks([]) == [];
  }
}
