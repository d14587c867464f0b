/**
 * The tool card (components/tools/toolCard.tsx): the icon lookup, the link
 * target built from the title, and the choice between the link and the
 * "Coming Soon" note.
 */
module ToolCard {
  import opened Wrappers
  import opened Strings

  datatype Icon = FileText | Globe | LineChart

  /** `iconMap`, keyed by the `icon` prop's names. */
  const IconMap: map<string, Icon> :=
    map["web-scraper" := FileText, "web-search" := Globe, "seo-report" := LineChart, "coming-soon" := FileText]

  /** The four names the `icon` prop may take. */
  const IconKeys: seq<string> := ["web-scraper", "web-search", "seo-report", "coming-soon"]

  /** Every allowed key has an icon, and the map has no other keys; the
      placeholder card shares the scraper's icon. */
  lemma IconMapTotal()
    ensures forall k | k in IconKeys :: k in IconMap
    ensures forall k | k in IconMap :: k in IconKeys
    ensures IconMap["coming-soon"] == IconMap["web-scraper"]
  {
  }

  /** `replace(/\s+/g, "-")`: every maximal run of whitespace becomes one
      dash. */
  function Dashify(s: string): string
    decreases |s|
  {
    if s == [] then []
    else if IsWhitespace(s[0]) then
      TrimStartSpec(s[1..]);
      "-" + Dashify(TrimStart(s[1..]))
    else [s[0]] + Dashify(s[1..])
  }

  /** The path segment: the title lowered, then dashified. */
  function Slug(title: string): string {
    Dashify(ToLower(title))
  }

  /** The link target. */
  function Href(title: string): string {
    "/tools/" + Slug(title)
  }

  predicate HasWhitespace(s: string) {
    exists i | 0 <= i < |s| :: IsWhitespace(s[i])
  }

  /** A whitespace run followed by a non-blank character (or the end)
      collapses to one dash. */
  lemma {:induction false} DashifyRun(run: string, rest: string)
    requires run != [] && IsBlank(run)
    requires rest == [] || !IsWhitespace(rest[0])
    ensures Dashify(run + rest) == "-" + Dashify(rest)
  {
    BlankPrefixTrimmed(run[1..], rest);
    assert (run + rest)[1..] == run[1..] + rest;
  }

  lemma {:induction false} BlankPrefixTrimmed(run: string, rest: string)
    requires IsBlank(run)
    requires rest == [] || !IsWhitespace(rest[0])
    ensures TrimStart(run + rest) == rest
  {
    if run != [] {
      assert (run + rest)[1..] == run[1..] + rest;
      BlankPrefixTrimmed(run[1..], rest);
    }
  }

  /** Every character of the result is a dash or a character of the input;
      none is whitespace, and the result is no longer than the input. */
  lemma {:induction false} DashifySpec(s: string)
    ensures |Dashify(s)| <= |s|
    ensures !HasWhitespace(Dashify(s))
    ensures forall i | 0 <= i < |Dashify(s)| :: Dashify(s)[i] == '-' || Dashify(s)[i] in s
    decreases |s|
  {
    if s == [] {
    } else if IsWhitespace(s[0]) {
      var rest := TrimStart(s[1..]);
      TrimStartSpec(s[1..]);
      DashifySpec(rest);
      forall i | 0 <= i < |Dashify(rest)| ensures Dashify(rest)[i] in rest ==> Dashify(rest)[i] in s {
        if Dashify(rest)[i] in rest {
          var j :| 0 <= j < |rest| && rest[j] == Dashify(rest)[i];
          assert s[|s| - |rest| + j] == rest[j];
        }
      }
    } else {
      DashifySpec(s[1..]);
      forall i | 0 <= i < |Dashify(s[1..])| ensures Dashify(s[1..])[i] in s[1..] ==> Dashify(s[1..])[i] in s {
        if Dashify(s[1..])[i] in s[1..] {
          var j :| 0 <= j < |s[1..]| && s[1..][j] == Dashify(s[1..])[i];
          assert s[j + 1] == s[1..][j];
        }
      }
    }
  }

  /** A string without whitespace is left as it is. */
  lemma {:induction false} DashifyWithoutWhitespace(s: string)
    requires !HasWhitespace(s)
    ensures Dashify(s) == s
    decreases |s|
  {
    if s != [] {
      assert !IsWhitespace(s[0]);
      assert !HasWhitespace(s[1..]) by {
        forall i | 0 <= i < |s[1..]| ensures !IsWhitespace(s[1..][i]) {
          assert s[1..][i] == s[i + 1];
        }
      }
      DashifyWithoutWhitespace(s[1..]);
    }
  }

  /** The slug holds no whitespace and is no longer than the title. */
  lemma SlugShape(title: string)
    ensures !HasWhitespace(Slug(title))
    ensures |Slug(title)| <= |title|
  {
    DashifySpec(ToLower(title));
  }

  /** Slugging a slug gives it back. */
  lemma SlugIdempotent(title: string)
    ensures Slug(Slug(title)) == Slug(title)
  {
    var lowered := ToLower(title);
    var slug := Dashify(lowered);
    DashifySpec(lowered);
    assert ToLower(slug) == slug by {
      forall i | 0 <= i < |slug| ensures LowerChar(slug[i]) == slug[i] {
        if slug[i] != '-' {
          var j :| 0 <= j < |lowered| && lowered[j] == slug[i];
        }
      }
    }
    DashifyWithoutWhitespace(slug);
  }

  /** A prefix without whitespace is kept as it is. */
  lemma {:induction false} DashifyKeepsWord(word: string, s: string)
    requires !HasWhitespace(word)
    ensures Dashify(word + s) == word + Dashify(s)
    decreases |word|
  {
    if word != [] {
      assert !IsWhitespace(word[0]);
      assert (word + s)[1..] == word[1..] + s;
      assert !HasWhitespace(word[1..]) by {
        forall i | 0 <= i < |word[1..]| ensures !IsWhitespace(word[1..][i]) {
          assert word[1..][i] == word[i + 1];
        }
      }
      DashifyKeepsWord(word[1..], s);
      calc {
        Dashify(word + s);
        [(word + s)[0]] + Dashify((word + s)[1..]);
        [word[0]] + Dashify(word[1..] + s);
        [word[0]] + (word[1..] + Dashify(s));
        { assert word == [word[0]] + word[1..]; }
        word + Dashify(s);
      }
    } else {
      assert word + s == s;
    }
  }

  /** Two words separated by a whitespace run become the words joined by one
      dash. */
  lemma TwoWords(first: string, run: string, second: string)
    requires !HasWhitespace(first) && !HasWhitespace(second)
    requires run != [] && IsBlank(run)
    ensures Dashify(first + run + second) == first + "-" + second
  {
    assert first + run + second == first + (run + second);
    DashifyKeepsWord(first, run + second);
    DashifyRun(run, second);
    DashifyWithoutWhitespace(second);
  }

  /** The scraper card links to "/tools/web-scraper". */
  lemma ScraperHref()
    ensures Href("Web Scraper") == "/tools/" + "web-scraper"
  {
    assert Slug("Web Scraper") == "web-scraper" by {
      assert ToLower("Web Scraper") == "web" + " " + "scraper" by {
        assert ToLower("Web Scraper") == "web scraper";
      }
      TwoWords("web", " ", "scraper");
      assert "web" + "-" + "scraper" == "web-scraper";
    }
  }

  /** A run of mixed whitespace becomes a single dash. */
  lemma MixedRunSlug()
    ensures Slug("SEO \t Report") == "seo-report"
  {
    assert ToLower("SEO \t Report") == "seo" + " \t " + "report" by {
      assert ToLower("SEO \t Report") == "seo \t report";
    }
    TwoWords("seo", " \t ", "report");
    assert "seo" + "-" + "report" == "seo-report";
  }

  /** Leading whitespace is not trimmed: it becomes a dash. */
  lemma LeadingSpaceSlug()
    ensures Slug(" Search") == "-search"
  {
    assert ToLower(" Search") == [] + " " + "search" by {
      assert ToLower(" Search") == " search";
    }
    TwoWords([], " ", "search");
    assert [] + "-" + "search" == "-search";
  }

  datatype Footer = UseTool(href: string) | ComingSoonNote

  /** The footer: the link unless `isComingSoon` is true (an absent prop
      counts as false). */
  function FooterFor(title: string, isComingSoon: Option<bool>): (f: Footer)
    ensures f.UseTool? <==> isComingSoon != Some(true)
    ensures f.UseTool? ==> f.href == Href(title)
  {
    if isComingSoon != Some(true) then UseTool(Href(title)) else ComingSoonNote
  }
}
