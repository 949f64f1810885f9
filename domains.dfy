/** The domain-set builder of src/index.ts (`fetchAdServers`): two feeds,
    each split into lines, cleaned by its own filter/map chain and checked
    against the domain shape, then merged after the custom servers and
    de-duplicated. The feed bodies are parameters; fetching them is not part
    of this model. index.ts's raw feed is `RawFeed`. */
module Domains {
  import opened Seqs
  import opened Text

  /** CUSTOM_AD_SERVERS. */
  const CustomAdServers: seq<string> := ["m.vpon.com"]

  predicate IsAsciiLetter(c: char)
  {
    'a' <= c <= 'z' || 'A' <= c <= 'Z'
  }

  /** The class [a-zA-Z0-9-_] of a label. */
  predicate IsLabelChar(c: char)
  {
    IsAsciiLetter(c) || IsDigit(c) || c == '-' || c == '_'
  }

  predicate AllLabelChars(s: string)
  {
    forall i :: 0 <= i < |s| ==> IsLabelChar(s[i])
  }

  /** [a-zA-Z]{2,}$: the last label. */
  predicate IsTopLabel(s: string)
  {
    |s| >= 2 && forall i :: 0 <= i < |s| ==> IsAsciiLetter(s[i])
  }

  /** validDomainRegex, /^(?!:\/\/)([a-zA-Z0-9-_]+\.)+[a-zA-Z]{2,}$/, read from the
      left. A label cannot hold a dot, so the first label ends at the first dot;
      after it comes either the last label or more labels. The lookahead is
      dropped here; `LookaheadRedundant` shows it never changes the answer. */
  predicate IsDomain(s: string)
    decreases |s|
  {
    var k := IndexOf(s, '.');
    0 < k < |s| && AllLabelChars(s[..k]) &&
    (IsTopLabel(s[k + 1..]) || IsDomain(s[k + 1..]))
  }

  /** The regex's own reading: labels, each followed by a dot, then the last label. */
  function Assemble(labels: seq<string>, top: string): string
  {
    if labels == [] then top else labels[0] + "." + Assemble(labels[1..], top)
  }

  predicate WellFormedParts(labels: seq<string>, top: string)
  {
    |labels| >= 1 && IsTopLabel(top) &&
    forall i :: 0 <= i < |labels| ==> |labels[i]| > 0 && AllLabelChars(labels[i])
  }

  lemma DotAfterLabel(head: string, rest: string)
    requires AllLabelChars(head)
    ensures IndexOf(head + "." + rest, '.') == |head|
  {
    var s := head + "." + rest;
    assert s[..|head|] == head;
    IndexOfIs(s, '.', |head|);
  }

  /** Every string the regex matches passes `IsDomain`. */
  lemma {:induction false} AssembledIsDomain(labels: seq<string>, top: string)
    requires WellFormedParts(labels, top)
    ensures IsDomain(Assemble(labels, top))
  {
    var rest := Assemble(labels[1..], top);
    var s := labels[0] + "." + rest;
    DotAfterLabel(labels[0], rest);
    assert s[..|labels[0]|] == labels[0];
    assert s[|labels[0]| + 1..] == rest;
    if |labels| > 1 {
      assert WellFormedParts(labels[1..], top) by {
        forall i | 0 <= i < |labels[1..]|
          ensures |labels[1..][i]| > 0 && AllLabelChars(labels[1..][i])
        {
          assert labels[1..][i] == labels[i + 1];
        }
      }
      AssembledIsDomain(labels[1..], top);
    }
  }

  /** Every string passing `IsDomain` is matched by the regex: it splits into labels and a last label. */
  lemma {:induction false} DomainIsAssembled(s: string)
    requires IsDomain(s)
    ensures exists labels, top :: WellFormedParts(labels, top) && Assemble(labels, top) == s
    decreases |s|
  {
    var k := IndexOf(s, '.');
    var head, rest := s[..k], s[k + 1..];
    assert s == head + "." + rest;
    if IsTopLabel(rest) {
      assert Assemble([head], rest) == head + "." + Assemble([], rest);
      assert WellFormedParts([head], rest);
    } else {
      DomainIsAssembled(rest);
      var labels, top :| WellFormedParts(labels, top) && Assemble(labels, top) == rest;
      var all := [head] + labels;
      assert all[1..] == labels;
      assert Assemble(all, top) == s;
      assert WellFormedParts(all, top) by {
        forall i | 0 <= i < |all| ensures |all[i]| > 0 && AllLabelChars(all[i]) {
          if i > 0 { assert all[i] == labels[i - 1]; }
        }
      }
    }
  }

  /** The (?!:\/\/) lookahead can never reject a string the rest accepts, since
      a domain begins with a label character and ':' is not one. */
  lemma LookaheadRedundant(s: string)
    requires IsDomain(s)
    ensures !StartsWith(s, "://")
  {
    assert IsLabelChar(s[..IndexOf(s, '.')][0]);
  }

  /** "ads.example.com" has the domain shape. */
  lemma DomainAccepted()
    ensures IsDomain("ads.example.com")
  {
    var labels := ["ads", "example"];
    var s := Assemble(labels, "com");
    assert s == "ads.example.com" by {
      assert labels[1..] == ["example"] && ["example"][1..] == [];
    }
    assert WellFormedParts(labels, "com") by {
      assert AllLabelChars("ads") && AllLabelChars("example") && IsTopLabel("com");
    }
    AssembledIsDomain(labels, "com");
  }

  /** A string without a dot never has the domain shape. */
  lemma NoDotNoDomain(s: string)
    requires '.' !in s
    ensures !IsDomain(s)
  {
    assert s[..|s|] == s;
    IndexOfIs(s, '.', |s|);
  }

  /** "a", "not a domain" and "://bad" do not have the domain shape. */
  lemma DomainRejected()
    ensures !IsDomain("a") && !IsDomain("not a domain") && !IsDomain("://bad")
  {
    NoDotNoDomain("a");
    NoDotNoDomain("not a domain");
    NoDotNoDomain("://bad");
  }

  /** A regex match on a line: `.` stands for any character but a line terminator. */
  predicate IsLineTerminator(c: char)
  {
    c == '\n' || c == '\r' || c == '\U{2028}' || c == '\U{2029}'
  }

  predicate NoLineTerminator(s: string)
  {
    forall i :: 0 <= i < |s| ==> !IsLineTerminator(s[i])
  }

  /** The first '^' at position 1 or later, or |s| when there is none. */
  function CaretFrom1(s: string): (k: nat)
    requires |s| >= 1
    ensures 1 <= k <= |s|
    ensures k < |s| ==> s[k] == '^'
    ensures forall j :: 1 <= j < k ==> s[j] != '^'
  {
    1 + IndexOf(s[1..], '^')
  }

  /** The length of the "@@||" or "||" that opens a rule, 0 when neither does. */
  function PrefixLength(line: string): nat
  {
    if StartsWith(line, "@@||") then 4 else if StartsWith(line, "||") then 2 else 0
  }

  /** line.replace(/^(?:@@)?\|\|(.+?)\^.*$/, '$1'). The match is anchored at both
      ends, so it covers the whole line or nothing: after an optional "@@" and
      "||" comes the shortest non-empty capture followed by '^', and `.` must
      match every remaining character. Without a match the line is unchanged. */
  function AdguardRewrite(line: string): string
  {
    var p := PrefixLength(line);
    if p == 0 || |line| == p then line
    else
      var rest := line[p..];
      var k := CaretFrom1(rest);
      if k < |rest| && NoLineTerminator(rest) then rest[..k] else line
  }

  /** .filter((line) => !line.match(/^!/) && line.includes('||')) */
  predicate AdguardKeeps(line: string)
  {
    !StartsWith(line, "!") && Contains(line, "||")
  }

  /** .map(...rewrite...).trim() */
  function AdguardClean(line: string): string
  {
    Trim(AdguardRewrite(line))
  }

  /** The adguard feed's items: body.split('\n'), filter, map, filter. */
  function AdguardItems(body: string): (r: seq<string>)
    ensures forall i :: 0 <= i < |r| ==> IsDomain(r[i])
  {
    Filter(Map(Filter(Split(body, '\n'), AdguardKeeps), AdguardClean), IsDomain)
  }

  /** .filter((line) => !line.includes('#')) */
  predicate BlacklistKeeps(line: string)
  {
    !Contains(line, "#")
  }

  /** .map((line) => line.replace(/0\.0\.0\.0/, '').trim()): the first "0.0.0.0" goes. */
  function BlacklistClean(line: string): string
  {
    Trim(ReplaceFirst(line, "0.0.0.0", ""))
  }

  /** The blacklist feed's items. */
  function BlacklistItems(body: string): (r: seq<string>)
    ensures forall i :: 0 <= i < |r| ==> IsDomain(r[i])
  {
    Filter(Map(Filter(Split(body, '\n'), BlacklistKeeps), BlacklistClean), IsDomain)
  }

  /** `fetchAdServers` of src/index.ts once both bodies are in: the custom
      servers, then the adguard items, then the blacklist items (Promise.all
      keeps that order), de-duplicated. */
  function AdServers(adguardBody: string, blacklistBody: string): seq<string>
  {
    Unique(CustomAdServers + Flatten([AdguardItems(adguardBody), BlacklistItems(blacklistBody)]))
  }

  /** `fetchAdServers` of index.ts: every line of the body, unchecked and not de-duplicated. */
  function RawFeed(body: string): (r: seq<string>)
    ensures |r| == multiset(body)['\n'] + 1
    ensures Join(r, "\n") == body
  {
    SplitCount(body, '\n');
    JoinSplit(body, '\n');
    Split(body, '\n')
  }

  /** An adguard item is exactly the cleaned form of a kept line that has the domain shape. */
  lemma AdguardItemsIff(body: string, d: string)
    ensures d in AdguardItems(body) <==>
      IsDomain(d) &&
      exists i :: 0 <= i < |Split(body, '\n')| &&
        AdguardKeeps(Split(body, '\n')[i]) && AdguardClean(Split(body, '\n')[i]) == d
  {
    var lines := Split(body, '\n');
    FilterMapFilterMembers(lines, AdguardKeeps, AdguardClean, IsDomain, d);
    if d in AdguardItems(body) {
      var i := FilterMapFilterSource(lines, AdguardKeeps, AdguardClean, IsDomain, d);
      assert AdguardKeeps(lines[i]);
    }
  }

  /** A blacklist item is exactly the cleaned form of a kept line that has the domain shape. */
  lemma BlacklistItemsIff(body: string, d: string)
    ensures d in BlacklistItems(body) <==>
      IsDomain(d) &&
      exists i :: 0 <= i < |Split(body, '\n')| &&
        BlacklistKeeps(Split(body, '\n')[i]) && BlacklistClean(Split(body, '\n')[i]) == d
  {
    var lines := Split(body, '\n');
    FilterMapFilterMembers(lines, BlacklistKeeps, BlacklistClean, IsDomain, d);
    if d in BlacklistItems(body) {
      var i := FilterMapFilterSource(lines, BlacklistKeeps, BlacklistClean, IsDomain, d);
      assert BlacklistKeeps(lines[i]);
    }
  }

  /** The lazy capture ends at the first caret after its first character, so
      a capture `d` with no caret after its first character ends right after `d`. */
  lemma CaretAfterDomain(d: string, modifiers: string)
    requires |d| >= 1 && '^' !in d[1..]
    ensures CaretFrom1(d + "^" + modifiers) == |d|
  {
    var rest := d + "^" + modifiers;
    assert rest[1..][..|d| - 1] == d[1..];
    assert rest[1..][|d| - 1] == '^';
    IndexOfIs(rest[1..], '^', |d| - 1);
  }

  /** On a blocking rule "||d^modifiers", or its exception form with "@@",
      the rewrite extracts the capture `d`: the shortest non-empty text before
      a '^'. Its first character may itself be a '^'. */
  lemma AdguardRewriteRule(prefix: string, d: string, modifiers: string)
    requires prefix == "||" || prefix == "@@||"
    requires |d| >= 1 && '^' !in d[1..]
    requires NoLineTerminator(d + "^" + modifiers)
    ensures AdguardRewrite(prefix + d + "^" + modifiers) == d
  {
    var rest := d + "^" + modifiers;
    var line := prefix + rest;
    assert prefix + d + "^" + modifiers == line;
    assert PrefixLength(line) == |prefix| by {
      assert line[..|prefix|] == prefix;
      if prefix == "||" {
        assert line[0] == '|';
      }
    }
    assert line[|prefix|..] == rest;
    CaretAfterDomain(d, modifiers);
    assert rest[..|d|] == d;
  }

  /** The capture may begin with a caret: "||^x^" rewrites to "^x" and
      "@@||^^y" to "^". */
  lemma AdguardRewriteLeadingCaret()
    ensures AdguardRewrite("||^x^") == "^x"
    ensures AdguardRewrite("@@||^^y") == "^"
  {
    AdguardRewriteRule("||", "^x", "");
    assert "||" + "^x" + "^" + "" == "||^x^";
    AdguardRewriteRule("@@||", "^", "y");
    assert "@@||" + "^" + "^" + "y" == "@@||^^y";
  }

  /** A line that does not begin with "||" or "@@||" is not rewritten. */
  lemma AdguardRewriteNoPrefix(line: string)
    requires !StartsWith(line, "||") && !StartsWith(line, "@@||")
    ensures AdguardRewrite(line) == line
  {
  }

  /** A rule line with no '^' after the first character of the capture does
      not match: it is not rewritten. */
  lemma AdguardRewriteNoCaret(line: string)
    requires StartsWith(line, "||") || StartsWith(line, "@@||")
    requires forall j :: PrefixLength(line) + 1 <= j < |line| ==> line[j] != '^'
    ensures AdguardRewrite(line) == line
  {
    var p := PrefixLength(line);
    if |line| > p {
      var rest := line[p..];
      assert forall j :: 1 <= j < |rest| ==> rest[j] == line[p + j];
    }
  }

  /** Neither `.` nor `$` crosses a line terminator, so a line holding one
      (a '\r' left by a CRLF feed, say) is not rewritten. */
  lemma AdguardRewriteLineBreak(line: string)
    requires !NoLineTerminator(line)
    ensures AdguardRewrite(line) == line
  {
    var p := PrefixLength(line);
    if p != 0 && |line| > p {
      var i :| 0 <= i < |line| && IsLineTerminator(line[i]);
      var rest := line[p..];
      if i >= p {
        assert rest[i - p] == line[i];
      }
    }
  }

  /** A hosts-file line "0.0.0.0 <domain>" cleans to the domain: the address
      goes, then the space before the name is trimmed. */
  lemma BlacklistHostsLine(d: string)
    requires d != [] && !IsAsciiWhitespace(d[0]) && !IsAsciiWhitespace(d[|d| - 1])
    ensures BlacklistClean("0.0.0.0 " + d) == d
  {
    var line := "0.0.0.0 " + d;
    assert line[..7] == "0.0.0.0";
    assert ReplaceFirst(line, "0.0.0.0", "") == " " + d by {
      assert line[..0] + "" + line[7..] == " " + d;
    }
    assert (" " + d)[1..] == d;
    assert TrimStart(" " + d) == TrimStart(d);
    TrimKeeps(d);
  }

  /** What `unique` receives: the custom servers, then the adguard items, then the blacklist items. */
  lemma MergedInput(a: seq<string>, b: seq<string>)
    ensures CustomAdServers + Flatten([a, b]) == ["m.vpon.com"] + a + b
  {
    FlattenAppend([a], [b]);
    FlattenCons(a, []);
    FlattenCons(b, []);
    assert [a, b] == [a] + [b];
  }

  /** The custom server has the domain shape too. */
  lemma CustomServerIsDomain()
    ensures IsDomain("m.vpon.com")
  {
    var labels := ["m", "vpon"];
    assert Assemble(labels, "com") == "m.vpon.com" by {
      assert labels[1..] == ["vpon"] && ["vpon"][1..] == [];
    }
    assert WellFormedParts(labels, "com") by {
      assert AllLabelChars("m") && AllLabelChars("vpon") && IsTopLabel("com");
    }
    AssembledIsDomain(labels, "com");
  }

  /** The custom server comes first in the merged set. */
  lemma AdServersHead(adguardBody: string, blacklistBody: string)
    ensures |AdServers(adguardBody, blacklistBody)| >= 1 && AdServers(adguardBody, blacklistBody)[0] == "m.vpon.com"
  {
    MergedHead(AdguardItems(adguardBody), BlacklistItems(blacklistBody));
  }

  lemma MergedHead(a: seq<string>, b: seq<string>)
    ensures |Unique(CustomAdServers + Flatten([a, b]))| >= 1
    ensures Unique(CustomAdServers + Flatten([a, b]))[0] == "m.vpon.com"
  {
    MergedInput(a, b);
    assert CustomAdServers + Flatten([a, b]) == ["m.vpon.com"] + (a + b);
    UniqueHead("m.vpon.com", a + b);
  }

  /** The merged set holds exactly the custom, adguard and blacklist entries. */
  lemma AdServersMembers(adguardBody: string, blacklistBody: string, d: string)
    ensures d in AdServers(adguardBody, blacklistBody) <==>
              d in CustomAdServers || d in AdguardItems(adguardBody) || d in BlacklistItems(blacklistBody)
  {
    var a, b := AdguardItems(adguardBody), BlacklistItems(blacklistBody);
    MergedInput(a, b);
    UniqueMembers(CustomAdServers + Flatten([a, b]), d);
  }

  /** Everything in the merged set has the domain shape. */
  lemma AdServersAreDomains(adguardBody: string, blacklistBody: string, d: string)
    requires d in AdServers(adguardBody, blacklistBody)
    ensures IsDomain(d)
  {
    AdServersMembers(adguardBody, blacklistBody, d);
    if d in AdguardItems(adguardBody) {
      FilterMembers(Map(Filter(Split(adguardBody, '\n'), AdguardKeeps), AdguardClean), IsDomain, d);
    } else if d in BlacklistItems(blacklistBody) {
      FilterMembers(Map(Filter(Split(blacklistBody, '\n'), BlacklistKeeps), BlacklistClean), IsDomain, d);
    } else {
      CustomServerIsDomain();
    }
  }

  /** The merged set: no duplicates, the custom server first, nothing but
      domains, and exactly the custom, adguard and blacklist entries. */
  lemma AdServersShape(adguardBody: string, blacklistBody: string)
    ensures NoDuplicates(AdServers(adguardBody, blacklistBody))
    ensures |AdServers(adguardBody, blacklistBody)| >= 1 && AdServers(adguardBody, blacklistBody)[0] == "m.vpon.com"
    ensures forall d :: d in AdServers(adguardBody, blacklistBody) ==> IsDomain(d)
    ensures forall d :: d in AdServers(adguardBody, blacklistBody) <==>
              d in CustomAdServers || d in AdguardItems(adguardBody) || d in BlacklistItems(blacklistBody)
  {
    AdServersHead(adguardBody, blacklistBody);
    forall d | d in AdServers(adguardBody, blacklistBody) ensures IsDomain(d) {
      AdServersAreDomains(adguardBody, blacklistBody, d);
    }
    forall d ensures d in AdServers(adguardBody, blacklistBody) <==>
              d in CustomAdServers || d in AdguardItems(adguardBody) || d in BlacklistItems(blacklistBody)
    {
      AdServersMembers(adguardBody, blacklistBody, d);
    }
  }
}
