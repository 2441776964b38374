/**
 * The name of the destination log stream (`constructAzureLogNm`).
 *
 * The application name loses every character of the class `[-+.^:,]`, an
 * empty version becomes "v0", and the kind suffix is "sl" for system logs and
 * "al" for application logs; the three parts are joined with "_". The
 * substitution of "default" for an empty application name in the Java method
 * happens after the filtered name has been computed, so it never reaches the
 * result: an empty name gives an empty first segment. A Java `null` argument
 * behaves as the empty string here.
 */
module LogName {
  import opened Wrappers

  const Underscore: char := '_'

  /** The six characters the regular expression `[-+.^:,]` matches. */
  predicate IsSpecial(c: char)
  {
    c == '-' || c == '+' || c == '.' || c == '^' || c == ':' || c == ','
  }

  predicate NoSpecials(s: string)
  {
    forall i :: 0 <= i < |s| ==> !IsSpecial(s[i])
  }

  /** `StringUtils.replaceAll(s, "[-+.^:,]", "")`. */
  function Filter(s: string): string
  {
    if s == [] then []
    else if IsSpecial(s[0]) then Filter(s[1..])
    else [s[0]] + Filter(s[1..])
  }

  function VersionSegment(appVersion: string): string
  {
    if appVersion == [] then "v0" else appVersion
  }

  function KindSuffix(isSysLog: bool): string
  {
    if isSysLog then "sl" else "al"
  }

  /** `constructAzureLogNm(appName, appVersion, isSysLog)`. */
  function ConstructAzureLogNm(appName: string, appVersion: string, isSysLog: bool): string
  {
    Filter(appName) + [Underscore] + VersionSegment(appVersion) + [Underscore] + KindSuffix(isSysLog)
  }

  // ---------------------------------------------------------------- filtering

  /** Filtering distributes over concatenation. */
  lemma {:induction false} FilterConcat(a: string, b: string)
    ensures Filter(a + b) == Filter(a) + Filter(b)
  {
    if a == [] {
      assert a + b == b;
    } else {
      assert (a + b)[0] == a[0];
      assert (a + b)[1..] == a[1..] + b;
      FilterConcat(a[1..], b);
    }
  }

  /** A character survives filtering exactly when it occurs and is not one of the six. */
  lemma {:induction false} FilterMembership(s: string, c: char)
    ensures c in Filter(s) <==> c in s && !IsSpecial(c)
  {
    if s != [] {
      FilterMembership(s[1..], c);
      assert c in s <==> c == s[0] || c in s[1..];
    }
  }

  /** The filtered name holds none of the six characters. */
  lemma FilterRemovesSpecials(s: string)
    ensures NoSpecials(Filter(s))
  {
    forall i | 0 <= i < |Filter(s)| ensures !IsSpecial(Filter(s)[i]) {
      FilterMembership(s, Filter(s)[i]);
    }
  }

  /** Filtering changes a string exactly when it holds one of the six characters. */
  lemma {:induction false} FilterIdentity(s: string)
    ensures Filter(s) == s <==> NoSpecials(s)
  {
    if s != [] {
      FilterIdentity(s[1..]);
      assert NoSpecials(s) <==> !IsSpecial(s[0]) && NoSpecials(s[1..]) by {
        if !IsSpecial(s[0]) && NoSpecials(s[1..]) {
          forall i | 0 <= i < |s| ensures !IsSpecial(s[i]) {
            if i > 0 { assert s[i] == s[1..][i - 1]; }
          }
        }
        if NoSpecials(s) {
          forall i | 0 <= i < |s[1..]| ensures !IsSpecial(s[1..][i]) { assert s[1..][i] == s[i + 1]; }
        }
      }
      if IsSpecial(s[0]) {
        FilterShorter(s[1..]);
      }
    }
  }

  lemma {:induction false} FilterShorter(s: string)
    ensures |Filter(s)| <= |s|
  {
    if s != [] { FilterShorter(s[1..]); }
  }

  /** Filtering twice is filtering once. */
  lemma FilterIdempotent(s: string)
    ensures Filter(Filter(s)) == Filter(s)
  {
    FilterRemovesSpecials(s);
    FilterIdentity(Filter(s));
  }

  /** Each kept character keeps its number of occurrences; each removed one has none. */
  lemma {:induction false} FilterCounts(s: string, c: char)
    ensures multiset(Filter(s))[c] == if IsSpecial(c) then 0 else multiset(s)[c]
  {
    if s != [] {
      FilterCounts(s[1..], c);
      assert s == [s[0]] + s[1..];
    }
  }

  // ------------------------------------------------------------ the log name

  /** Index of the last occurrence of `c` in `s`. */
  function LastIndexOf(s: string, c: char): (r: Option<nat>)
    ensures r.Some? ==> r.value < |s| && s[r.value] == c && c !in s[r.value + 1..]
    ensures r.None? ==> c !in s
  {
    if s == [] then None
    else if s[|s| - 1] == c then Some(|s| - 1)
    else
      match LastIndexOf(s[..|s| - 1], c)
      case None => None
      case Some(i) => assert s[i + 1..] == s[..|s| - 1][i + 1..] + [s[|s| - 1]]; Some(i)
  }

  lemma LastIndexOfAfter(a: string, c: char, b: string)
    requires c !in b
    ensures LastIndexOf(a + [c] + b, c) == Some(|a|)
  {
    var s := a + [c] + b;
    assert s[|a|] == c;
    assert s[|a| + 1..] == b;
  }

  /** The parts a log-stream name is made of: first segment, version segment, kind. */
  datatype LogNameParts = LogNameParts(appSegment: string, versionSegment: string, isSysLog: bool)

  /**
   * Reads a log-stream name back from the right: the kind suffix, then the
   * version up to the last underscore before it; the rest is the first segment.
   */
  function ParseLogName(name: string): Option<LogNameParts>
  {
    if |name| < 3 || name[|name| - 3] != Underscore then None
    else
      var suffix := name[|name| - 2..];
      if suffix != "sl" && suffix != "al" then None
      else
        var front := name[..|name| - 3];
        match LastIndexOf(front, Underscore)
        case None => None
        case Some(i) => Some(LogNameParts(front[..i], front[i + 1..], suffix == "sl"))
  }

  /**
   * A log-stream name reads back to the filtered application name, the
   * version (or "v0") and the kind, whenever the version holds no underscore.
   */
  lemma ParseConstructAzureLogNm(appName: string, appVersion: string, isSysLog: bool)
    requires Underscore !in appVersion
    ensures ParseLogName(ConstructAzureLogNm(appName, appVersion, isSysLog))
         == Some(LogNameParts(Filter(appName), VersionSegment(appVersion), isSysLog))
  {
    ParseJoined(Filter(appName), VersionSegment(appVersion), isSysLog);
  }

  lemma ParseJoined(first: string, version: string, isSysLog: bool)
    requires Underscore !in version
    ensures ParseLogName(first + [Underscore] + version + [Underscore] + KindSuffix(isSysLog))
         == Some(LogNameParts(first, version, isSysLog))
  {
    var front := first + [Underscore] + version;
    var suffix := KindSuffix(isSysLog);
    var name := front + [Underscore] + suffix;
    assert |suffix| == 2;
    assert name[|name| - 3] == Underscore;
    assert name[|name| - 2..] == suffix;
    assert suffix == "sl" <==> isSysLog by {
      assert "al"[0] != "sl"[0];
    }
    assert name[..|name| - 3] == front;
    assert LastIndexOf(front, Underscore) == Some(|first|) by {
      LastIndexOfAfter(first, Underscore, version);
    }
    assert front[..|first|] == first;
    assert front[|first| + 1..] == version;
  }

  /**
   * The first segment is the filtered name itself, so the "default"
   * substitute never appears: an empty name leaves the name starting with "_".
   */
  lemma FirstSegmentIsFilteredName(appName: string, appVersion: string, isSysLog: bool)
    ensures var name := ConstructAzureLogNm(appName, appVersion, isSysLog);
      |name| > |Filter(appName)| && name[..|Filter(appName)|] == Filter(appName)
      && name[|Filter(appName)|] == Underscore
    ensures appName == [] ==> ConstructAzureLogNm(appName, appVersion, isSysLog)[0] == Underscore
  {
  }

  /** A name without the six characters and a non-empty version are kept as they are. */
  lemma PlainNameKept(appName: string, appVersion: string, isSysLog: bool)
    requires NoSpecials(appName) && appVersion != []
    ensures ConstructAzureLogNm(appName, appVersion, isSysLog) == appName + "_" + appVersion + "_" + KindSuffix(isSysLog)
    ensures !isSysLog ==> ConstructAzureLogNm(appName, appVersion, isSysLog) == appName + "_" + appVersion + "_al"
  {
    FilterIdentity(appName);
    assert [Underscore] == "_";
    assert "_" + KindSuffix(false) == "_al";
  }

  /** The name ends in "_sl" exactly for system logs and in "_al" exactly for application logs. */
  lemma KindFromSuffix(appName: string, appVersion: string, isSysLog: bool)
    ensures var name := ConstructAzureLogNm(appName, appVersion, isSysLog);
      |name| >= 3 && (name[|name| - 3..] == "_sl" <==> isSysLog) && (name[|name| - 3..] == "_al" <==> !isSysLog)
  {
    var name := ConstructAzureLogNm(appName, appVersion, isSysLog);
    assert name[|name| - 3..] == [Underscore] + KindSuffix(isSysLog);
    assert "_al"[1] != "_sl"[1];
  }

  lemma ExampleApplicationLog()
    ensures ConstructAzureLogNm("My.App+1", "", false) == "MyApp1_v0_al"
  {
    assert Filter("My.App+1") == "MyApp1" by {
      FilterConcat("My", ".App+1");
      FilterConcat(".App", "+1");
    }
  }

  lemma ExampleSystemLogWithoutName()
    ensures ConstructAzureLogNm("", "2.0", true) == "_2.0_sl"
  {
  }
}
