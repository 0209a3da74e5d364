# GitHub stat card generator, modelled in Dafny

`generate-github-card.js` fetches the public profile and the repository list
of one hard-coded GitHub user (`jaxo4life`). It sums the stars of those
repositories and writes a fixed-layout SVG "stat card" with three badges:
repositories, stars and followers. This project models the two deterministic
parts of that script and proves their properties:

- **Stats collection** (`stats_collector.dfy`, module `StatsCollector`). The
  `reduce` that sums `stargazers_count` from an initial 0 is modelled as a left
  fold, `FoldStars`, exactly as the callback runs. It is proved equal to an
  independent recursive sum, `SumStars`. `StatsOf` builds the
  `{ repos, stars, followers }` record from the already-parsed profile fields and
  repository list.
- **Decimal rendering** (`decimal.dfy`, module `Decimal`). `NatToString` renders a
  number in base ten, as `${n}` does for a whole number. A reader, `Value`, reads
  the text back, and both round trips are proved.
- **Card rendering** (`card_renderer.dfy`, module `CardRenderer`). The
  `generateSVG` template literal is constant text with three numeric holes.
  `Template` holds that text cut before each badge label. `Interpolate` adds the
  labels and fills the hole after each one,
  and `GenerateSvg` fills them with the decimal renderings of the record.
  Each constant fragment reproduces the source character for character: the
  coordinates, the colours, the username, the avatar address
  `https://github.com/jaxo4life.png`, and the bio `Full-stack & Blockchain`.
  The bio keeps its bare `&`. The source escapes nothing, so the model escapes
  nothing either. As a result the generated file is not well-formed XML.

## Model

| member | source | states |
|---|---|---|
| `StatsCollector.StarTotal` | generate-github-card.js:16 | the left fold from 0 over the repositories equals the sum of every repository's stargazer count |
| `StatsCollector.FoldStarsIsSum` | generate-github-card.js:16 | folding from any accumulator adds the sum of the stargazer counts to that accumulator |
| `StatsCollector.StarTotalEmpty` | generate-github-card.js:16 | an empty repository list yields 0 stars |
| `StatsCollector.StarTotalAppendOne` | generate-github-card.js:16 | appending one repository raises the total by exactly its stargazer count |
| `StatsCollector.StarTotalConcat` | generate-github-card.js:16 | the total of two lists in sequence is the sum of their totals |
| `StatsCollector.SumStarsAppend` | generate-github-card.js:16 | the reference sum is additive over concatenation |
| `StatsCollector.StarTotalBoundsEach` | generate-github-card.js:16 | no single repository has more stars than the total |
| `StatsCollector.StatsOf` | generate-github-card.js:18-22 | the record copies `public_repos` to `repos` and `followers` to `followers` unchanged, and its `stars` is the sum of the stargazer counts |
| `StatsCollector.WorkedExampleStats` | generate-github-card.js:16-22 | 5 public repositories, 12 followers and repositories with 3 and 7 stars give the record (5, 10, 12) |
| `Decimal.NatToString` | generate-github-card.js:48 | the rendering of a number is a non-empty run of decimal digits without a leading zero, is "0" only for 0, and has one digit exactly below 10 |
| `Decimal.ValueOfNatToString` | generate-github-card.js:48 | reading the rendered digits back gives the number rendered |
| `Decimal.NatToStringOfValue` | generate-github-card.js:48 | every canonical digit string is the rendering of the number it denotes |
| `Decimal.NatToStringInjective` | generate-github-card.js:48 | two numbers render to the same text exactly when they are equal |
| `CardRenderer.GenerateSvg` | generate-github-card.js:25-57 | every card starts with a newline and `<svg width="700" height="200"`, and ends with `</svg>` |
| `CardRenderer.LeadIsShared` | generate-github-card.js:26-48 | every card begins with the same text, from the canvas header through the first badge's `Repos: ` label |
| `CardRenderer.BadgesInOrder` | generate-github-card.js:48-54 | the card contains `Repos: ` + decimal(repos), `Stars: ` + decimal(stars) and `Followers: ` + decimal(followers), each preceded at once by `>` and followed at once by `</text>`, so each is the whole content of its text element; they appear in that order and without overlap |
| `CardRenderer.InterpolateShowsBadges` | generate-github-card.js:48-54 | in any template whose text before each badge label ends with `>` and whose text after each hole starts with `</text>`, each labelled value is the whole content of a text element, and the three appear in order |
| `CardRenderer.BadgesClose` | generate-github-card.js:47-56 | each badge label and its hole sit inside a text element: the card's text before the label ends with the element's `>`, and the text after the hole starts with `</text>` |
| `CardRenderer.IdentityIsFixed` | generate-github-card.js:41-44 | every card contains the avatar attribute `href="https://github.com/jaxo4life.png"`, the name `jaxo4life` and the bio `Full-stack & Blockchain` (with its bare ampersand), each preceded at once by `>` and followed at once by `</text>`, so each is the whole content of its text element |
| `CardRenderer.AvatarHref` | generate-github-card.js:5-6 | the avatar address built from the username is `https://github.com/jaxo4life.png` |
| `CardRenderer.GenerateSvgInjective` | generate-github-card.js:25 | two records give the same card exactly when their three numbers are equal: the card depends on the numbers only, and shows each of them unambiguously |
| `CardRenderer.InterpolateInjective` | generate-github-card.js:48-54 | when the text after each hole does not begin with a digit, filling the holes with digit runs is reversible |
| `CardRenderer.WorkedExampleCard` | generate-github-card.js:48-54 | the record (5, 10, 12) gives a card whose badge texts are exactly `Repos: 5`, `Stars: 10` and `Followers: 12`, in that order |

## Left out

- The two HTTP requests to the GitHub API and their `Accept` header (generate-github-card.js:9-10, :13) are network I/O. The model starts from their parsed results.
- The repository request at generate-github-card.js:13 fetches one page of at most 100 repositories (`per_page=100`) and does not follow further pages. For a user with more than 100 repositories, `stars` therefore covers only the first page, while `repos` (`public_repos`) counts all of them. The model sums whatever list it is given, so it inherits this limit.
- JSON parsing of the responses (generate-github-card.js:11, :14) is a library call. Profile fields and stargazer counts enter the model as `nat` values.
- Malformed data is not modelled. In JavaScript the `+` at generate-github-card.js:16 coerces: a missing (`undefined`) count makes the sum `NaN`, `null` adds 0, `true` adds 1 and `false` adds 0, and a string or object count turns the sum into string concatenation; a body that is not an array makes `reduce` throw. Repositories are modelled as well-formed entries with a natural-number count.
- A missing `public_repos` or `followers` field would print `undefined` on the card. The model takes both fields as present numbers.
- The file write, the console message, and the asynchronous entry point (generate-github-card.js:59-64) are I/O and sequencing. None of them has a value-level behaviour to model.
- The gradient, filter, panel, circle and badge-rectangle markup (generate-github-card.js:28-40, :47, :50, :53) is reproduced as constant text. No layout meaning is verified.
- NatToString: renders every natural number in plain decimal. JavaScript numbers are doubles: `${n}` switches to exponent notation from 10^21, and integer sums lose precision above 2^53. GitHub counts stay far below both limits.
- StatsCollector.StarTotal: the sum is exact, whereas the source adds doubles. The two agree below 2^53.
