# VrikshaVed AI chat assistant, modelled in Dafny

The VrikshaVed AI component of the Greenora web front end is a scripted plant
expert. The user types a question. The component shows it as a user message
and, after a short delay, appends the assistant's reply. The reply comes from
`generateAIResponse`, a fixed cascade of keyword rules. The cascade reads the
lower-cased query and a one-slot conversation context (`''`, `'export'`,
`'growing'` or `'health'`), which the rules also update.

The model has four modules:

- `Text` (`text.dfy`) holds the string primitives the component relies on.
  These are `includes` as the predicate `Contains`, proved equivalent to
  "occurs at some index", and `toLowerCase`, `trim` and `join`.
- `Knowledge` (`knowledge.dfy`) holds the plant table. It covers the three
  records with their exact data, in declaration order. It also covers the
  first-match lookup over the keys and the reply block that presents a plant.
- `Resolver` (`resolver.dfy`) models `generateAIResponse`. It is a total
  function `Resolve(query, context)` that returns the reply, as a tag that
  `Render` turns into the exact source text, together with the context for
  the next turn. The component's `setConversationContext` call becomes that
  second component of the result.
- `Dialogue` (`dialogue.dfy`) models the component's state: the message list,
  the context, the loading flag and the text the pending reply will answer.
  The class `Session` has `Submit`, for `handleSend` up to the timer, and
  `Complete`, for the timer's callback. Its invariant says the welcome
  message comes first, then user and assistant messages take turns, and a
  reply is pending exactly when the last message is from the user.

The code returns from the three context-qualified rules before it updates the
context, so when one of those three rules answers, the context is left exactly
as it was (`Resolver.ContextUpdateOnlyWhenUnqualified`).

## Model

| member | source | states |
|---|---|---|
| Text.ContainsIff | VrikshaVedAI.jsx:72 | `Contains(s, t)`, the model of `s.includes(t)`, holds exactly when `t` occurs in `s` at some index |
| Text.Lower | VrikshaVedAI.jsx:69 | the lower-cased query has the length of the query and maps every ASCII capital to its small letter, keeping every other character |
| Text.LowerIdempotent | VrikshaVedAI.jsx:69 | lower-casing an already lower-cased query changes nothing |
| Text.TrimStart | VrikshaVedAI.jsx:53 | the result is a suffix of the input, everything dropped is whitespace, and the result does not start with whitespace |
| Text.TrimEnd | VrikshaVedAI.jsx:53 | the result is a prefix of the input, everything dropped is whitespace, and the result does not end with whitespace |
| Text.TrimEmptyIff | VrikshaVedAI.jsx:53 | `input.trim()` is empty exactly when every character of the input is ECMAScript whitespace or a line terminator |
| Text.JoinContainsEach | VrikshaVedAI.jsx:96 | every element of an array occurs in its `join` |
| Knowledge.FirstMatch | VrikshaVedAI.jsx:94-98 | the scan returns the first table position whose key occurs in the query, and returns nothing exactly when no key occurs |
| Knowledge.LookupOrder | VrikshaVedAI.jsx:25-50 | the lookup picks tulsi, then aloe vera, then turmeric, whichever occurs first in that order, and finds nothing exactly when none of the three keys occurs |
| Knowledge.Bullets | VrikshaVedAI.jsx:96 | the bullet list built element by element has one entry per benefit, and entry `i` is "• " followed by benefit `i`, as `benefits.map(b => '• ' + b)` gives |
| Knowledge.PlantBlockLayout | VrikshaVedAI.jsx:96 | the benefits heading is followed directly by the bullet list joined with line breaks |
| Knowledge.PlantBlockFacts | VrikshaVedAI.jsx:96 | the plant block contains the plant's name, growing guide, price, export markets joined by ", " and harvest time |
| Knowledge.PlantBlockBenefits | VrikshaVedAI.jsx:96 | every benefit appears in the plant block as a "• " bullet |
| Knowledge.PlantBlockFirstBullet | VrikshaVedAI.jsx:96 | the first bullet follows the line break that ends the benefits heading |
| Knowledge.PlantBlockMarkets | VrikshaVedAI.jsx:96 | every export market appears in the plant block |
| Resolver.TopicTests | VrikshaVedAI.jsx:72-80 | on the stored context strings, `includes('export')` holds only for 'export' and `includes('grow')` holds only for 'growing' |
| Resolver.ExportDocumentsIff | VrikshaVedAI.jsx:72-74 | the documents checklist is the reply exactly when the context is export and the lowered query contains "document" |
| Resolver.ExportPricingIff | VrikshaVedAI.jsx:72-78 | the pricing reply is given exactly when the context is export and the query contains "price" but not "document", so documents win |
| Resolver.SoilGuideIff | VrikshaVedAI.jsx:80-82 | the soil guide is given exactly when the context is growing and the query contains "soil"; with any other context it never is |
| Resolver.ContextUpdateOnlyWhenUnqualified | VrikshaVedAI.jsx:72-91 | after a context-qualified reply the context is unchanged; after any other reply it is the result of the context update |
| Resolver.ClassifyOrder | VrikshaVedAI.jsx:85-91 | the update sets export, else growing, else health, by the first keyword group the query mentions, and keeps the context when there is none; it never yields the empty context from a set one |
| Resolver.ResolveNeverResets | VrikshaVedAI.jsx:85-91 | once set, the context is never reset to '' by a turn |
| Resolver.PlantBeforeCategories | VrikshaVedAI.jsx:94-98 | when no context-qualified rule fires, a plant found in the query is the reply, ahead of every keyword category |
| Resolver.CategoryOrder | VrikshaVedAI.jsx:101-115 | with no context-qualified rule and no plant, the categories are tried in the order growing, export, health, greeting |
| Resolver.GrowingReplyExportContext | VrikshaVedAI.jsx:85-107 | a query naming both growing and export keywords, and no plant, is answered with the growing overview while the context becomes export |
| Resolver.TulsiExport | VrikshaVedAI.jsx:85-98 | a query containing "tulsi" and "export", from an empty context, gives the tulsi block and moves the context to export |
| Resolver.FallbackIff | VrikshaVedAI.jsx:68-118 | the default reply is given exactly when no context-qualified rule, no plant and no keyword category matches |
| Resolver.CaseInsensitive | VrikshaVedAI.jsx:69 | the response to a query equals the response to its lower-cased form |
| Resolver.PlantReplyFromDatabase | VrikshaVedAI.jsx:94-98 | every plant reply presents one of the three database records |
| Resolver.PlantReplyMentions | VrikshaVedAI.jsx:96 | a plant reply contains the name, every benefit as a bullet, the price, every export market and the harvest time |
| Resolver.KeyLooksUpItself | VrikshaVedAI.jsx:94-98 | each database key, looked up on its own, finds its own record |
| Resolver.PlantKeyResolves | VrikshaVedAI.jsx:68-98 | a query that is just a plant key is answered with that plant's block in every context, and the context is kept |
| Resolver.GreetingMatchesInsideWords | VrikshaVedAI.jsx:113-115 | the greeting rule tests the substring "hi", so the query "which" gets the greeting |
| Dialogue.Session.constructor | VrikshaVedAI.jsx:5-13 | a new session holds only the assistant's welcome message, has the empty context and is not loading |
| Dialogue.Session.Submit | VrikshaVedAI.jsx:52-58 | a blank input, or any input while loading, changes nothing; otherwise exactly one user message with the raw input is appended and the session is loading; the turn-taking invariant is kept |
| Dialogue.Session.Complete | VrikshaVedAI.jsx:61-65 | exactly one assistant message is appended, holding the resolver's reply to the same raw text; the context becomes the resolver's new context and is never reset; loading ends; the invariant is kept |

## Left out

- Text.Lower: only ASCII letters are lower-cased. JavaScript's `toLowerCase` also maps other scripts, the Kelvin sign U+212A (to "k") and the dotted capital I U+0130 (to "i" plus a combining dot). This can change the reply: "MAR\u212AET" contains "market" once JavaScript lowers it, so the component gives the export overview and moves the context to export, while the model gives the default reply and keeps the context; likewise "H\u0130" greets in the component and falls back in the model.
- Strings are sequences of Unicode code points. JavaScript strings are UTF-16 code units, so lengths and positions differ for characters outside the Basic Multilingual Plane (the emoji in the replies). Substring tests agree on well-formed text.
- The 1500 ms delay of `setTimeout` is left out. `Complete` is the callback, called once per accepted submission. Between the two calls only `Complete` can change the context, so the context the callback sees is the one current at submission.
- Dialogue.Session.Submit takes the input as a parameter. Clearing the input box (`setInput('')`), typing into it, and the quick-question buttons that fill it are left out. So are the disabled state of the input and the send button, which repeat the guard `Submit` already checks.
- Rendering is left out: scrolling to the newest message, the typing indicator, and splitting each reply into paragraphs at line breaks.
- Firebase authentication, network requests to the back end, `localStorage`, routing, the quote form, the mobile helpers and the build configuration are other components and are not part of this model.
