/**
  `generateSVG`: a template literal that places the three numbers of the stats
  record into a fixed SVG document. Every other character of the document is
  constant, including the subject's name, the avatar address and the bio line,
  which is emitted exactly as written, with a bare `&` and no escaping.
 */
module CardRenderer {
  import opened Decimal
  import opened StatsCollector

  /** The hard-coded subject of the card. */
  const Username: string := "jaxo4life"

  /** `https://github.com/${username}.png` */
  const AvatarUrl: string := "https://github.com/" + Username + ".png"

  /** The bio line, a literal of the template. */
  const Bio: string := "Full-stack & Blockchain"

  // The constant fragments of the template, in document order.

  /** The opening of the root element, up to its fixed canvas size. */
  const CanvasHeader: string := "\n<svg width=\"700\" height=\"200\""

  const CanvasOpen: string := CanvasHeader + " xmlns=\"http://www.w3.org/2000/svg\">\n"

  const Defs: string :=
    "  <defs>\n"
    + "    <linearGradient id=\"grad\" x1=\"0%\" y1=\"0%\" x2=\"100%\" y2=\"100%\">\n"
    + "      <stop offset=\"0%\" style=\"stop-color:#74dcc4;stop-opacity:1\" />\n"
    + "      <stop offset=\"100%\" style=\"stop-color:#4597e9;stop-opacity:1\" />\n"
    + "    </linearGradient>\n"
    + "    <filter id=\"shadow\" x=\"-20%\" y=\"-20%\" width=\"140%\" height=\"140%\">\n"
    + "      <feDropShadow dx=\"0\" dy=\"5\" stdDeviation=\"10\" flood-color=\"rgba(0,0,0,0.3)\"/>\n"
    + "    </filter>\n"
    + "  </defs>\n"
    + "\n"

  const Panel: string :=
    "  <rect x=\"10\" y=\"10\" rx=\"20\" ry=\"20\" width=\"680\" height=\"180\" fill=\"url(#grad)\" filter=\"url(#shadow)\" />\n"
    + "\n"

  // Where the source interpolates a constant, the interpolated text and its
  // surrounding quotes or tag delimiters are grouped in parentheses.

  const AvatarBlock: string :=
    "  <circle cx=\"70\" cy=\"100\" r=\"50\" fill=\"#ffffff\" />\n"
    + "  <image " + ("href=\"" + AvatarUrl + "\"")
    + " x=\"20\" y=\"50\" width=\"100\" height=\"100\" clip-path=\"circle(50%)\"/>\n"
    + "\n"

  const NameLine: string :=
    "  <text x=\"150\" y=\"80\" font-size=\"28\" fill=\"white\" font-family=\"Fira Code\" font-weight=\"bold\""
    + (">" + Username + "</text>") + "\n"

  const BioLine: string :=
    "  <text x=\"150\" y=\"115\" font-size=\"16\" fill=\"white\" font-family=\"Fira Code\""
    + (">" + Bio + "</text>") + "\n"
    + "\n"

  const GroupOpen: string :=
    "  <g font-family=\"Fira Code\" fill=\"white\" font-weight=\"bold\">\n"

  /** A badge's translucent background and the opening of its text element. */
  function BadgeOpen(rectX: string, textX: string): string {
    "    <rect x=\"" + rectX
    + "\" y=\"130\" width=\"120\" height=\"50\" rx=\"10\" ry=\"10\" fill=\"rgba(255,255,255,0.2)\" />\n"
    + "    <text x=\"" + textX + "\" y=\"160\" font-size=\"18\">"
  }

  /** Everything before the first badge label: the same for every card. */
  const Lead: string := CanvasOpen + LeadBody

  const LeadBody: string :=
    Defs + Panel + AvatarBlock + NameLine + BioLine + GroupOpen + BadgeOpen("150", "160")

  /** Between the repository count and the "Stars: " label. */
  const AfterRepos: string := "</text>\n" + "\n" + BadgeOpen("280", "290")

  /** Between the star count and the "Followers: " label. */
  const AfterStars: string := "</text>\n" + "\n" + BadgeOpen("410", "420")

  /** After the follower count: the end of the badge group and of the document. */
  const Closing: string := "</text>\n" + "  </g>\n" + "</svg>"

  /**
    The constant text of the template literal, cut before each badge label.
    `Interpolate` adds the labels ("Repos: ", "Stars: ", "Followers: "), each
    directly followed by its numeric hole.
   */
  datatype Template = Template(lead: string, afterRepos: string, afterStars: string, closing: string)

  const Card: Template := Template(Lead, AfterRepos, AfterStars, Closing)

  /** The template with the three holes filled by the given texts. */
  function Interpolate(t: Template, repos: string, stars: string, followers: string): string {
    t.lead + ("Repos: " + repos)
    + t.afterRepos + ("Stars: " + stars)
    + t.afterStars + ("Followers: " + followers)
    + t.closing
  }

  /** Text that cannot be mistaken for the continuation of a number. */
  predicate Separates(s: string) {
    |s| >= 1 && !IsDigit(s[0])
  }

  ghost predicate StartsWith(s: string, prefix: string) {
    exists rest: string :: s == prefix + rest
  }

  ghost predicate EndsWith(s: string, suffix: string) {
    exists front: string :: s == front + suffix
  }

  ghost predicate Contains(hay: string, needle: string) {
    exists before: string, after: string :: hay == before + needle + after
  }

  /** `a`, `b` and `c` occur in `hay` one after the other, without overlapping. */
  ghost predicate InOrder(hay: string, a: string, b: string, c: string) {
    exists before: string, gap1: string, gap2: string, after: string ::
      hay == before + a + gap1 + b + gap2 + c + after
  }

  // Facts about text in general.

  lemma ContainsSelf(needle: string)
    ensures Contains(needle, needle)
  {
    assert needle == [] + needle + [];
  }

  /** Text found in the first part is found in the whole. */
  lemma ContainsLeft(a: string, b: string, needle: string)
    requires Contains(a, needle)
    ensures Contains(a + b, needle)
  {
    var before: string, after: string :| a == before + needle + after;
    assert a + b == before + needle + (after + b);
  }

  /** Text found in the last part is found in the whole. */
  lemma ContainsRight(a: string, b: string, needle: string)
    requires Contains(b, needle)
    ensures Contains(a + b, needle)
  {
    var before: string, after: string :| b == before + needle + after;
    assert a + b == (a + before) + needle + after;
  }

  /** A prefix of the first part is a prefix of the whole. */
  lemma StartsWithExtends(a: string, b: string, prefix: string)
    requires StartsWith(a, prefix)
    ensures StartsWith(a + b, prefix)
  {
    var rest: string :| a == prefix + rest;
    assert a + b == prefix + (rest + b);
  }

  /**
    After a common prefix, a digit run followed by a non-digit is split off
    unambiguously.
   */
  lemma SplitDigits(p: string, d1: string, x: string, d2: string, y: string)
    requires IsCanonical(d1) && IsCanonical(d2) && Separates(x) && Separates(y)
    requires p + d1 + x == p + d2 + y
    ensures d1 == d2 && x == y
  {
    var u, v := d1 + x, d2 + y;
    assert u == (p + d1 + x)[|p|..];
    assert v == (p + d2 + y)[|p|..];
    var n := if |d1| < |d2| then |d1| else |d2|;
    assert u[n] == v[n];
    assert IsDigit(u[n]) <==> n < |d1|;
    assert IsDigit(v[n]) <==> n < |d2|;
    assert |d1| == |d2|;
    assert d1 == u[..|d1|];
    assert d2 == v[..|d2|];
    assert x == u[|d1|..];
    assert y == v[|d2|..];
  }

  /**
    Three digit runs, each closed by text that does not start with a digit,
    are read back unambiguously from the text around them.
   */
  lemma ThreeRuns(l: string, d1: string, m1: string, e1: string, m2: string, f1: string, z: string,
                  d2: string, e2: string, f2: string)
    requires IsCanonical(d1) && IsCanonical(e1) && IsCanonical(f1)
    requires IsCanonical(d2) && IsCanonical(e2) && IsCanonical(f2)
    requires Separates(m1) && Separates(m2) && Separates(z)
    requires l + d1 + m1 + e1 + m2 + f1 + z == l + d2 + m1 + e2 + m2 + f2 + z
    ensures d1 == d2 && e1 == e2 && f1 == f2
  {
    var x1, x2 := m1 + e1 + m2 + f1 + z, m1 + e2 + m2 + f2 + z;
    assert x1[0] == m1[0] && x2[0] == m1[0];
    assert l + d1 + m1 + e1 + m2 + f1 + z == l + d1 + x1;
    assert l + d2 + m1 + e2 + m2 + f2 + z == l + d2 + x2;
    SplitDigits(l, d1, x1, d2, x2);
    var y1, y2 := m2 + f1 + z, m2 + f2 + z;
    assert y1[0] == m2[0] && y2[0] == m2[0];
    assert x1 == m1 + e1 + y1 && x2 == m1 + e2 + y2;
    SplitDigits(m1, e1, y1, e2, y2);
    assert y1 == m2 + f1 + z && y2 == m2 + f2 + z;
    SplitDigits(m2, f1, z, f2, z);
  }

  // Facts about any template.

  /** The filled template, regrouped around its three holes. */
  lemma InterpolateRuns(t: Template, repos: string, stars: string, followers: string)
    ensures Interpolate(t, repos, stars, followers)
      == (t.lead + "Repos: ") + repos + (t.afterRepos + "Stars: ") + stars
         + (t.afterStars + "Followers: ") + followers + t.closing
  {
  }

  /**
    When the text after each hole does not start with a digit, the filled
    template determines the three digit runs put into it.
   */
  lemma InterpolateInjective(t: Template, r1: string, s1: string, f1: string,
                             r2: string, s2: string, f2: string)
    requires Separates(t.afterRepos) && Separates(t.afterStars) && Separates(t.closing)
    requires IsCanonical(r1) && IsCanonical(s1) && IsCanonical(f1)
    requires IsCanonical(r2) && IsCanonical(s2) && IsCanonical(f2)
    requires Interpolate(t, r1, s1, f1) == Interpolate(t, r2, s2, f2)
    ensures r1 == r2 && s1 == s2 && f1 == f2
  {
    var p, m1, m2 := t.lead + "Repos: ", t.afterRepos + "Stars: ", t.afterStars + "Followers: ";
    assert m1[0] == t.afterRepos[0] && m2[0] == t.afterStars[0];
    InterpolateRuns(t, r1, s1, f1);
    InterpolateRuns(t, r2, s2, f2);
    ThreeRuns(p, r1, m1, s1, m2, f1, t.closing, r2, s2, f2);
  }

  /** Every filled template begins with its lead and the first badge label. */
  lemma InterpolateStartsWithLead(t: Template, repos: string, stars: string, followers: string)
    ensures StartsWith(Interpolate(t, repos, stars, followers), t.lead + "Repos: ")
  {
    var rest := repos + t.afterRepos + ("Stars: " + stars) + t.afterStars
      + ("Followers: " + followers) + t.closing;
    assert Interpolate(t, repos, stars, followers) == (t.lead + "Repos: ") + rest;
  }

  /** What starts the lead starts the filled template. */
  lemma InterpolatePrefix(t: Template, repos: string, stars: string, followers: string, prefix: string)
    requires StartsWith(t.lead, prefix)
    ensures StartsWith(Interpolate(t, repos, stars, followers), prefix)
  {
    var tail := ("Repos: " + repos) + t.afterRepos + ("Stars: " + stars) + t.afterStars
      + ("Followers: " + followers) + t.closing;
    StartsWithExtends(t.lead, tail, prefix);
    assert Interpolate(t, repos, stars, followers) == t.lead + tail;
  }

  /** What ends the text after the last hole ends the filled template. */
  lemma InterpolateSuffix(t: Template, repos: string, stars: string, followers: string, suffix: string)
    requires EndsWith(t.closing, suffix)
    ensures EndsWith(Interpolate(t, repos, stars, followers), suffix)
  {
    var front: string :| t.closing == front + suffix;
    var head := t.lead + ("Repos: " + repos) + t.afterRepos + ("Stars: " + stars) + t.afterStars
      + ("Followers: " + followers);
    assert Interpolate(t, repos, stars, followers) == (head + front) + suffix;
  }

  /** Text found in the lead is found in the filled template. */
  lemma InterpolateKeepsLead(t: Template, repos: string, stars: string, followers: string, needle: string)
    requires Contains(t.lead, needle)
    ensures Contains(Interpolate(t, repos, stars, followers), needle)
  {
    var tail := ("Repos: " + repos) + t.afterRepos + ("Stars: " + stars) + t.afterStars
      + ("Followers: " + followers) + t.closing;
    ContainsLeft(t.lead, tail, needle);
    assert Interpolate(t, repos, stars, followers) == t.lead + tail;
  }

  /**
    The text between two holes: it closes one badge's text element and ends
    with the `>` that opens the next.
   */
  ghost predicate Bridges(s: string) {
    exists gap: string :: s == "</text>" + gap + ">"
  }

  /**
    When the template text before each badge label ends by opening a text
    element and the text after each hole closes it, the three badge texts appear in the
    filled template, in order, each as the whole content of its element.
   */
  lemma InterpolateShowsBadges(t: Template, repos: string, stars: string, followers: string)
    requires EndsWith(t.lead, ">") && Bridges(t.afterRepos) && Bridges(t.afterStars)
    requires StartsWith(t.closing, "</text>")
    ensures InOrder(Interpolate(t, repos, stars, followers),
      ">" + "Repos: " + repos + "</text>",
      ">" + "Stars: " + stars + "</text>",
      ">" + "Followers: " + followers + "</text>")
  {
    var l: string :| t.lead == l + ">";
    var g1: string :| t.afterRepos == "</text>" + g1 + ">";
    var g2: string :| t.afterStars == "</text>" + g2 + ">";
    var r: string :| t.closing == "</text>" + r;
    BadgeRuns(l, "Repos: ", repos, g1, "Stars: ", stars, g2, "Followers: ", followers, r, "</text>", ">");
  }

  /**
    Three labelled values, each opened by `open` and closed by `close`, are
    found in order in text that wraps them so.
   */
  lemma BadgeRuns(l: string, p1: string, v1: string, g1: string, p2: string, v2: string, g2: string,
                  p3: string, v3: string, r: string, close: string, open: string)
    ensures InOrder((l + open) + (p1 + v1) + (close + g1 + open) + (p2 + v2) + (close + g2 + open)
                      + (p3 + v3) + (close + r),
      open + p1 + v1 + close, open + p2 + v2 + close, open + p3 + v3 + close)
  {
    var n1, n2, n3 := open + p1 + v1 + close, open + p2 + v2 + close, open + p3 + v3 + close;
    var y1 := (l + open) + (p1 + v1) + (close + g1 + open);
    assert y1 == l + n1 + g1 + open;
    var y2 := y1 + (p2 + v2) + (close + g2 + open);
    assert y2 == l + n1 + g1 + n2 + g2 + open;
    var y3 := y2 + (p3 + v3) + (close + r);
    assert y3 == l + n1 + g1 + n2 + g2 + n3 + r;
  }

  lemma EndsWithSelf(front: string, suffix: string)
    ensures EndsWith(front + suffix, suffix)
  {
  }

  /** A suffix of the last part is a suffix of the whole. */
  lemma EndsWithExtends(a: string, b: string, suffix: string)
    requires EndsWith(b, suffix)
    ensures EndsWith(a + b, suffix)
  {
    var front: string :| b == front + suffix;
    assert a + b == (a + front) + suffix;
  }

  // Facts about the card's own fragments, each settled on its own literal.

  lemma LeadHeader()
    ensures StartsWith(Lead, "\n<svg width=\"700\" height=\"200\"")
  {
    assert CanvasOpen == CanvasHeader + " xmlns=\"http://www.w3.org/2000/svg\">\n";
    StartsWithExtends(CanvasOpen, LeadBody, CanvasHeader);
  }

  lemma ClosingShape()
    ensures Separates(Closing) && EndsWith(Closing, "</svg>")
  {
    assert Closing[0] == '<';
    assert Closing == ("</text>\n" + "  </g>\n") + "</svg>";
  }

  /** Every badge's opening ends with the `>` of its text element. */
  lemma BadgeOpenEnds(rectX: string, textX: string)
    ensures EndsWith(BadgeOpen(rectX, textX), ">")
  {
    var front := "    <rect x=\"" + rectX
      + "\" y=\"130\" width=\"120\" height=\"50\" rx=\"10\" ry=\"10\" fill=\"rgba(255,255,255,0.2)\" />\n"
      + "    <text x=\"" + textX + "\" y=\"160\" font-size=\"18\"";
    assert "\" y=\"160\" font-size=\"18\">" == "\" y=\"160\" font-size=\"18\"" + ">";
    assert BadgeOpen(rectX, textX) == front + ">";
    EndsWithSelf(front, ">");
  }

  /**
    Each badge label and its hole sit inside a text element: the template text
    before the label ends with the element's `>`, and the text after the hole
    starts with `</text>`.
   */
  lemma BadgesClose()
    ensures EndsWith(Lead, ">") && Bridges(AfterRepos) && Bridges(AfterStars)
    ensures StartsWith(Closing, "</text>")
  {
    LeadOpensBadge();
    BridgeBetween("280", "290");
    BridgeBetween("410", "420");
    ClosingCloses();
  }

  lemma ClosingCloses()
    ensures StartsWith(Closing, "</text>")
  {
    assert "</text>\n" == "</text>" + "\n";
    assert Closing == "</text>" + ("\n" + "  </g>\n" + "</svg>");
  }

  lemma LeadOpensBadge()
    ensures EndsWith(Lead, ">")
  {
    BadgeOpenEnds("150", "160");
    EndsWithExtends(Defs + Panel + AvatarBlock + NameLine + BioLine + GroupOpen, BadgeOpen("150", "160"), ">");
    EndsWithExtends(CanvasOpen, LeadBody, ">");
  }

  /** The text between two badge values, of the shape of `AfterRepos` and `AfterStars`. */
  lemma BridgeBetween(rectX: string, textX: string)
    ensures Bridges("</text>\n" + "\n" + BadgeOpen(rectX, textX))
  {
    assert "</text>\n" == "</text>" + "\n";
    BadgeOpenEnds(rectX, textX);
    var f: string :| BadgeOpen(rectX, textX) == f + ">";
    assert "</text>\n" + "\n" + BadgeOpen(rectX, textX) == "</text>" + ("\n" + "\n" + f) + ">";
  }

  lemma MiddlesSeparate()
    ensures Separates(AfterRepos) && Separates(AfterStars)
  {
    assert AfterRepos[0] == '<';
    assert AfterStars[0] == '<';
  }

  /** The `href` attribute of the avatar image, spelled out. */
  lemma AvatarHref()
    ensures "href=\"" + AvatarUrl + "\"" == "href=\"https://github.com/jaxo4life.png\""
  {
  }

  lemma LeadShowsAvatar()
    ensures Contains(Lead, "href=\"https://github.com/jaxo4life.png\"")
  {
    var href := "href=\"" + AvatarUrl + "\"";
    AvatarHref();
    ContainsSelf(href);
    var circle := "  <circle cx=\"70\" cy=\"100\" r=\"50\" fill=\"#ffffff\" />\n" + "  <image ";
    ContainsRight(circle, href, href);
    ContainsLeft(circle + href,
      " x=\"20\" y=\"50\" width=\"100\" height=\"100\" clip-path=\"circle(50%)\"/>\n", href);
    ContainsLeft(circle + href
      + " x=\"20\" y=\"50\" width=\"100\" height=\"100\" clip-path=\"circle(50%)\"/>\n", "\n", href);
    ContainsRight(Defs + Panel, AvatarBlock, href);
    ContainsLeft(Defs + Panel + AvatarBlock, NameLine, href);
    ContainsLeft(Defs + Panel + AvatarBlock + NameLine, BioLine, href);
    ContainsLeft(Defs + Panel + AvatarBlock + NameLine + BioLine, GroupOpen, href);
    ContainsLeft(Defs + Panel + AvatarBlock + NameLine + BioLine + GroupOpen, BadgeOpen("150", "160"), href);
    ContainsRight(CanvasOpen, LeadBody, href);
  }

  lemma NameText()
    ensures ">" + Username + "</text>" == ">jaxo4life</text>"
  {
  }

  lemma BioText()
    ensures ">" + Bio + "</text>" == ">Full-stack & Blockchain</text>"
  {
  }

  lemma NameLineShowsName()
    ensures Contains(NameLine, ">" + Username + "</text>")
  {
    var name := ">" + Username + "</text>";
    ContainsSelf(name);
    var open := "  <text x=\"150\" y=\"80\" font-size=\"28\" fill=\"white\" font-family=\"Fira Code\" font-weight=\"bold\"";
    ContainsRight(open, name, name);
    ContainsLeft(open + name, "\n", name);
  }

  lemma BioLineShowsBio()
    ensures Contains(BioLine, ">" + Bio + "</text>")
  {
    var bio := ">" + Bio + "</text>";
    ContainsSelf(bio);
    var open := "  <text x=\"150\" y=\"115\" font-size=\"16\" fill=\"white\" font-family=\"Fira Code\"";
    ContainsRight(open, bio, bio);
    ContainsLeft(open + bio, "\n", bio);
    ContainsLeft(open + bio + "\n", "\n", bio);
  }

  lemma LeadShowsName()
    ensures Contains(Lead, ">jaxo4life</text>")
  {
    var name := ">" + Username + "</text>";
    NameLineShowsName();
    ContainsRight(Defs + Panel + AvatarBlock, NameLine, name);
    ContainsLeft(Defs + Panel + AvatarBlock + NameLine, BioLine, name);
    ContainsLeft(Defs + Panel + AvatarBlock + NameLine + BioLine, GroupOpen, name);
    ContainsLeft(Defs + Panel + AvatarBlock + NameLine + BioLine + GroupOpen, BadgeOpen("150", "160"), name);
    ContainsRight(CanvasOpen, LeadBody, name);
    NameText();
  }

  lemma LeadShowsBio()
    ensures Contains(Lead, ">Full-stack & Blockchain</text>")
  {
    var bio := ">" + Bio + "</text>";
    BioLineShowsBio();
    ContainsRight(Defs + Panel + AvatarBlock + NameLine, BioLine, bio);
    ContainsLeft(Defs + Panel + AvatarBlock + NameLine + BioLine, GroupOpen, bio);
    ContainsLeft(Defs + Panel + AvatarBlock + NameLine + BioLine + GroupOpen, BadgeOpen("150", "160"), bio);
    ContainsRight(CanvasOpen, LeadBody, bio);
    BioText();
  }

  // The card.

  /** The document written to the card file for a given stats record. */
  function GenerateSvg(stats: Stats): (doc: string)
    ensures StartsWith(doc, "\n<svg width=\"700\" height=\"200\"")
    ensures EndsWith(doc, "</svg>")
  {
    var repos, stars, followers :=
      NatToString(stats.repos), NatToString(stats.stars), NatToString(stats.followers);
    LeadHeader();
    ClosingShape();
    InterpolatePrefix(Card, repos, stars, followers, "\n<svg width=\"700\" height=\"200\"");
    InterpolateSuffix(Card, repos, stars, followers, "</svg>");
    Interpolate(Card, repos, stars, followers)
  }

  /** Every card begins with the same text, up to the first badge's label. */
  lemma LeadIsShared(stats: Stats)
    ensures StartsWith(GenerateSvg(stats), Lead + "Repos: ")
  {
    InterpolateStartsWithLead(Card, NatToString(stats.repos), NatToString(stats.stars),
      NatToString(stats.followers));
  }

  /**
    The three badge texts appear on the card, in the order repos, stars,
    followers, each as the whole content of its text element.
   */
  lemma BadgesInOrder(stats: Stats)
    ensures InOrder(GenerateSvg(stats),
      ">" + "Repos: " + NatToString(stats.repos) + "</text>",
      ">" + "Stars: " + NatToString(stats.stars) + "</text>",
      ">" + "Followers: " + NatToString(stats.followers) + "</text>")
  {
    BadgesClose();
    InterpolateShowsBadges(Card, NatToString(stats.repos), NatToString(stats.stars),
      NatToString(stats.followers));
  }

  /**
    The avatar address, the name and the bio are the same on every card, and
    the bio keeps its bare ampersand.
   */
  lemma IdentityIsFixed(stats: Stats)
    ensures Contains(GenerateSvg(stats), "href=\"https://github.com/jaxo4life.png\"")
    ensures Contains(GenerateSvg(stats), ">jaxo4life</text>")
    ensures Contains(GenerateSvg(stats), ">Full-stack & Blockchain</text>")
  {
    var repos, stars, followers :=
      NatToString(stats.repos), NatToString(stats.stars), NatToString(stats.followers);
    LeadShowsAvatar();
    InterpolateKeepsLead(Card, repos, stars, followers, "href=\"https://github.com/jaxo4life.png\"");
    LeadShowsName();
    InterpolateKeepsLead(Card, repos, stars, followers, ">jaxo4life</text>");
    LeadShowsBio();
    InterpolateKeepsLead(Card, repos, stars, followers, ">Full-stack & Blockchain</text>");
  }

  /**
    The card depends on the three numbers and on nothing else, and it shows
    them faithfully: two records give the same document exactly when they are
    equal.
   */
  lemma GenerateSvgInjective(a: Stats, b: Stats)
    ensures GenerateSvg(a) == GenerateSvg(b) <==> a == b
  {
    if GenerateSvg(a) == GenerateSvg(b) {
      MiddlesSeparate();
      ClosingShape();
      InterpolateInjective(Card,
        NatToString(a.repos), NatToString(a.stars), NatToString(a.followers),
        NatToString(b.repos), NatToString(b.stars), NatToString(b.followers));
      NatToStringInjective(a.repos, b.repos);
      NatToStringInjective(a.stars, b.stars);
      NatToStringInjective(a.followers, b.followers);
    }
  }

  lemma ExampleNumbers()
    ensures ">" + "Repos: " + NatToString(5) + "</text>" == ">Repos: 5</text>"
    ensures ">" + "Stars: " + NatToString(10) + "</text>" == ">Stars: 10</text>"
    ensures ">" + "Followers: " + NatToString(12) + "</text>" == ">Followers: 12</text>"
  {
    assert NatToString(5) == "5";
    assert NatToString(10) == "10";
    assert NatToString(12) == "12";
  }

  /**
    An example: the record (5, 10, 12) gives a card whose badges read
    "Repos: 5", "Stars: 10" and "Followers: 12", in that order.
   */
  lemma WorkedExampleCard()
    ensures InOrder(GenerateSvg(Stats(5, 10, 12)), ">Repos: 5</text>", ">Stars: 10</text>", ">Followers: 12</text>")
  {
    BadgesInOrder(Stats(5, 10, 12));
    ExampleNumbers();
  }
}
