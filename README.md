# Whopify recommender: catalog shaping and grounded prompt, in Dafny

Whopify is an affiliate recommender for Whop products. Its two
programs are modelled here as pure functions over records whose fields may be
strings, `null` or missing:

- **The chat handler** (`api/chat.js`, module `Chat`) takes the rows returned
  by the similarity search. It does four things:
  - builds an affiliate link for each row (`buildLink`);
  - renders the rows as a numbered product list;
  - puts the product list and the user message into a grounded prompt for
    the language model;
  - returns the model's text beside a projection of the same rows
    (`enrichedMatches`).
- **The ingestion script** (`scripts/embed.js`, module `Embed`) handles each
  catalog record. It builds the text that gets embedded and the row that is
  upserted into `whop_embeddings`.

Shared modules:

- `Js` models the JavaScript semantics the code relies on:
  - a field is `Undefined`, `Null` or `Str(s)`;
  - truthiness means a non-empty string;
  - `a || b` and `${v || d}` fallbacks;
  - plain `${v}` interpolation, which prints `undefined` or `null`.
- `Text` provides `join` and `split` with their round trips, the locating of
  the parts of a join, and the decimal rendering of `${i + 1}`.
- `Pipeline` joins the two halves. It asks what the handler would make of a
  row that carries exactly the columns the script writes.

The language model is a parameter `generate: string -> string` of
`Chat.Respond`. The similarity search is not modelled: its result is the
`matches` argument. The embedding call and the upsert are not modelled
either: `Embed.Ingest` returns, for each record, the embedding input and the
row that would be sent.

A note on the two halves together. The handler reads `company_route` and
`company.route` for links, and `logo` for logos. The script stores neither
`company_route` nor a `company` object, and no `logo` column. If the search
returned the stored columns under their own names, every link would be `null`
and every list entry would show `Link unavailable`
(`Pipeline.StoredRowHasNoLink`). The search's SQL is not part of this model,
so this is stated only conditionally.

## Model

| member | source | states |
|---|---|---|
| Js.OrElse | api/chat.js:49-51 | `${v \|\| d}` is non-empty exactly when the field is truthy or the default is non-empty |
| Text.JoinLayout | api/chat.js:53 | part `i` of a join sits at its offset; it is followed by the separator and part `i+1`, or by the end of the text when it is the last part |
| Text.JoinPartInside | api/chat.js:53 | a join embedded in a larger text at position `at` has part `i` at `at` plus that part's offset |
| Text.JoinPartsInside | api/chat.js:53 | a join embedded in a larger text shows every one of its parts there, each at its offset |
| Text.JoinSplit | api/chat.js:42 | joining the pieces of a split on `c` with `c` gives back the original text |
| Text.SplitJoin | scripts/embed.js:12 | splitting a join of a non-empty list of `c`-free parts on `c` gives back exactly those parts |
| Text.Decimal | api/chat.js:48 | the rendering of a number is a non-empty string of digits with no leading zero |
| Text.DecimalRoundTrip | api/chat.js:48 | parsing the rendering of `n` gives `n`, so the entry number identifies the position |
| Chat.BuildLink | api/chat.js:38-43 | with `CompanyRoute` as `m.company_route \|\| m.company?.route \|\| ""` and `ProductRoute` as `m.route \|\| ""`: null exactly when neither `company_route` nor `company.route` is truthy, or `route` is not truthy; `company_route` takes precedence over `company.route`; otherwise the link is `https://whop.com/<company>/<product>?a=wapify` |
| Chat.LinkRoundTrip | api/chat.js:39-42 | a built link, parsed back, gives the `CompanyRoute` and the `ProductRoute` it was built from, when the company route has no `/` |
| Chat.NoBlankValues | api/chat.js:49-51 | headline, price and link lines are never blank; each shows its field when truthy, else `No headline`, `N/A` or `Link unavailable`; a built link is shown as built |
| Chat.EntryShape | api/chat.js:48-51 | an entry is its four lines (number and title, Headline, Price, Affiliate Link), in that order, each ended by a newline |
| Chat.EntrySplitsIntoLines | api/chat.js:48-51 | when no value contains a newline, splitting an entry on newlines gives exactly its four lines and a final empty piece |
| Chat.BlockSplitsIntoLines | api/chat.js:47-51 | `Block(i, m)`, the map callback's text for match `i`, splits into the line `<i+1>. <title>`, then the Headline, Price and Affiliate Link lines |
| Chat.EntryOpens | api/chat.js:48 | an entry opens with its number, `. `, the title and a newline |
| Chat.Blocks | api/chat.js:45-52 | one block per match, in match order; block `i` is the block of match `i` and opens with `<i+1>. <title>` and a newline |
| Chat.ProductListLayout | api/chat.js:45-53 | `ProductList` (`productList`) holds block `i` at its offset, followed by a newline and block `i+1`, or by the end of the list after the last match |
| Chat.Fill | api/chat.js:56-75 | a filled template holds the grounding sentence after the opening line, the message verbatim between two double quotes, and the product list, each at a position fixed by the template and the message length |
| Chat.PromptCarries | api/chat.js:56-75 | `Prompt` (`prompt`, the template filled with the handler's fixed text) always holds the sentence "Use ONLY the Whop products provided below — do NOT invent …", the user message verbatim between double quotes, and the product list |
| Chat.FillShowsBlocks | api/chat.js:45-66 | every block of the product list appears in a filled template, each at the list's position plus its offset |
| Chat.Logo | api/chat.js:91 | the logo is `m.logo` when truthy, else `m.image` when truthy, else `null` |
| Chat.EnrichAll | api/chat.js:86-92 | same length and order as `matches`; title, headline and price are passed through unchanged, with no placeholder; `link` is `buildLink(m)`, possibly null; `logo` follows the logo fallback |
| Chat.ProseAgrees | api/chat.js:45-53 | entry `i` of the structured reply, rendered as a list entry, is exactly block `i` of the product list |
| Chat.ProjectionReadsAsBlocks | api/chat.js:45-92 | every entry of the projection, rendered as a list entry, is the block of the same match |
| Chat.Respond | api/chat.js:56-97 | the reply text is the generator's answer to the prompt; the structured part is `enrichedMatches` (`EnrichAll`), one entry per match; every block of the list appears in that prompt at the list's position plus its offset; structured entry `i`, rendered as a list entry, is block `i`, so the prose and the data describe the same rows in the same order |
| Chat.NoMatchesStillGenerates | api/chat.js:45-97 | with no matches, the generator is still asked, over an empty product list, and `matches` in the reply is empty |
| Embed.Segments | scripts/embed.js:12 | five segments, in this order: title, headline, description, `Category: ` plus the industry, `Type: ` plus the business type; a missing or empty field gives `""`; both labels are always present |
| Embed.EmbeddingTextShape | scripts/embed.js:12 | `EmbeddingText` (`text`, the embedding input) is the five segments joined by newlines |
| Embed.EmbeddingTextSplits | scripts/embed.js:12 | when no field contains a newline, splitting the embedding input on newlines gives back exactly the five segments |
| Embed.ToRow | scripts/embed.js:19-28 | id, title, headline, description and route are copied verbatim; price is the default plan's truthy price tag, else `""`; image is the truthy logo URL, else the truthy company-logo URL, else `""` |
| Embed.RowAgreesWithText | scripts/embed.js:12-23 | when title, headline and description contain no newline, the embedding input has at least four lines and its first three are the stored row's title, headline and description, each `""` when missing; industry and business type may hold anything |
| Embed.Ingest | scripts/embed.js:11-31 | exactly one upsert per record, in input order; upsert `i` carries record `i`'s embedding input and row, keyed by its id |
| Embed.IngestAppend | scripts/embed.js:11-31 | ingesting two catalogs in sequence gives the upserts of the first and then those of the second |
| Pipeline.StoredRowHasNoLink | api/chat.js:38-51 | for such a row the link is null, the list shows `Link unavailable`, and the logo is the stored image when there is one |
| Pipeline.IngestedRowsHaveNoLink | scripts/embed.js:11-31 | for every row the script produces, read back the same way, the link is null, the list shows `Link unavailable`, and the logo is the stored image when there is one |

## Left out

- The OpenAI embedding and chat-completion calls, the Supabase `match_whops` search and the `upsert`. These are network services. The search result is an input, the generator is a function parameter, and the upsert is the returned row.
- Embedding vectors, the similarity threshold 0.6 and `match_count: 3`. These are floating point and database-side. Nothing here bounds the number of matches.
- CORS headers, the OPTIONS early return, `res.status(...).json(...)` and the 500 path on errors. These are transport concerns; `Chat.Respond` is the body of the 200 reply.
- Client setup from environment variables, reading `whops.json`, `dotenv` and console logging. These are I/O.
- The generated text. The handler passes it through unchanged; nothing in the code checks it against the grounding instruction. `completion.choices[0].message.content` may be `null`, but `generate` always returns a string, so a null reply text is not modelled.
- JSON serialisation. An `Undefined` field of a reply entry or stored row is kept as such, not dropped as `JSON.stringify` would drop it.
- Non-string field values. A numeric `id` or `price` and a missing `message` are outside the model. `message` is a string, and every other field is a string, `null` or missing.
- Upsert-by-id table semantics. `whop_embeddings` is not modelled as a table, so repeated ids overwriting each other is not captured. The loop is a map to upserts, each carrying its id.
- Embed.Ingest: one upsert per record holds only when every call succeeds. A rejected embedding request throws out of the loop, so later records get no upsert. The upsert's `error` result is never checked, so a failed upsert is skipped silently, "Uploaded" is logged anyway, and the loop goes on. These failures are not modelled.
- Strings are sequences of Unicode scalar values, while JavaScript strings are sequences of UTF-16 code units. Every length and position (`|message|`, `ListAt`, `Offset`, `ShowsParts`, the positions in `Chat.Fill` and `Chat.Respond`) counts code points. `message.length` would count a character outside the Basic Multilingual Plane, such as an emoji, as 2. A lone surrogate, which JSON can carry, has no counterpart here.
- Chat.LinkRoundTrip: proved only for company routes without `/`, because with a `/` in the company route the URL no longer says where one route ends.
- Embed.EmbeddingTextSplits: proved only when no field contains a newline. Otherwise a description with line breaks gives the text more than five lines.
- Embed.RowAgreesWithText: proved only when title, headline and description contain no newline. A description with line breaks spreads over several lines of the input, so its third line is then only the description's first line.
- Chat.BlockSplitsIntoLines: proved only when no value contains a newline, for the same reason.
