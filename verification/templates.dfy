/** analysis_mcp/analyzers.py: the token language of argv templates. */
module Templates {
  import opened Wrappers
  import opened Text
  import Ids

  const DIR := "{dir}"
  const TMP := "{tmp}"
  const FILE_OPEN := "{file:"
  const FILES_OPEN := "{files:"

  predicate BraceFree(s: string) { '{' !in s && '}' !in s }

  /** `word in s` */
  predicate Contains(s: string, word: string) {
    word <= s || (s != "" && Contains(s[1..], word))
  }

  /** The group of `^\{file:(.+)\}$` or `^\{files:(.+)\}$`; `.` takes no newline, `$` lets one follow. */
  function Glob(tok: string, open: string): Option<string> {
    var t := Ids.BeforeFinalNewline(tok);
    if open <= t && |t| > |open| + 1 && t[|t| - 1] == '}' && '\n' !in t then Some(t[|open|..|t| - 1])
    else None
  }

  predicate IsSelector(tok: string) { Glob(tok, FILE_OPEN).Some? || Glob(tok, FILES_OPEN).Some? }

  predicate Embeds(tok: string) { Contains(tok, DIR) || Contains(tok, TMP) }

  function Substituted(tok: string, runDir: string, tmpDir: string): string {
    Replace(Replace(tok, DIR, runDir), TMP, tmpDir)
  }

  /** `validate_argv_template`, for one token. */
  predicate Accepts(tok: string) { IsSelector(tok) || BraceFree(Substituted(tok, "", "")) }

  datatype ExpandError = NotExactlyOne(found: nat) | NoMatch

  /** `_expand_token`; `find` is the sorted result of `find_matches` in the run's directory. */
  function ExpandToken(tok: string, runDir: string, tmpDir: string, find: string -> seq<string>)
    : Result<seq<string>, ExpandError>
  {
    if Embeds(tok) then Ok([Substituted(tok, runDir, tmpDir)])
    else
      var file := Glob(tok, FILE_OPEN);
      var files := Glob(tok, FILES_OPEN);
      if file.Some? then
        var matches := find(file.value);
        if |matches| != 1 then Err(NotExactlyOne(|matches|)) else Ok(matches)
      else if files.Some? then
        var matches := find(files.value);
        if matches == [] then Err(NoMatch) else Ok(matches)
      else Ok([tok])
  }

  /** `_expand_argv` */
  function ExpandArgv(template: seq<string>, runDir: string, tmpDir: string, find: string -> seq<string>)
    : Result<seq<string>, ExpandError>
  {
    if template == [] then Ok([])
    else
      match ExpandToken(template[0], runDir, tmpDir, find)
      case Err(e) => Err(e)
      case Ok(args) =>
        match ExpandArgv(template[1..], runDir, tmpDir, find)
        case Err(e) => Err(e)
        case Ok(rest) => Ok(args + rest)
  }

  /** The token is made of whole `{dir}` and `{tmp}` and of characters that are no braces. */
  predicate Clean(tok: string)
    decreases |tok|
  {
    tok == "" ||
    (if DIR <= tok || TMP <= tok then Clean(tok[5..]) else tok[0] !in {'{', '}'} && Clean(tok[1..]))
  }

  /** The arguments a token stands for: its matches, or one argument free of placeholders. */
  predicate Delivered(tok: string, args: seq<string>, find: string -> seq<string>) {
    (!Embeds(tok) && Glob(tok, FILE_OPEN).Some? && |args| == 1 && args == find(Glob(tok, FILE_OPEN).value)) ||
    (!Embeds(tok) && Glob(tok, FILES_OPEN).Some? && args != [] && args == find(Glob(tok, FILES_OPEN).value)) ||
    (|args| == 1 && BraceFree(args[0]))
  }

  /** What a template's author can check: selectors embed nothing, every other token is clean. */
  predicate Sendable(tok: string) { if IsSelector(tok) then !Embeds(tok) else Clean(tok) }

  // ---- substitution in clean tokens ----

  /** Substituting both placeholders in one pass. */
  function Direct(tok: string, runDir: string, tmpDir: string): string
    decreases |tok|
  {
    if tok == "" then ""
    else if DIR <= tok then runDir + Direct(tok[5..], runDir, tmpDir)
    else if TMP <= tok then tmpDir + Direct(tok[5..], runDir, tmpDir)
    else [tok[0]] + Direct(tok[1..], runDir, tmpDir)
  }

  lemma {:induction false} ReplacePast(a: string, b: string, what: string, insert: string)
    requires what != "" && what[0] !in a
    ensures Replace(a + b, what, insert) == a + Replace(b, what, insert)
  {
    if a == "" {
      assert a + b == b;
    } else {
      assert (a + b)[0] == a[0] && (a + b)[1..] == a[1..] + b;
      ReplacePast(a[1..], b, what, insert);
      assert [a[0]] + (a[1..] + Replace(b, what, insert)) == a + Replace(b, what, insert);
    }
  }

  lemma ReplaceKeepsTmp(rest: string, runDir: string)
    ensures Replace(TMP + rest, DIR, runDir) == TMP + Replace(rest, DIR, runDir)
  {
    var s := TMP + rest;
    assert s[1] == 't' && !(DIR <= s);
    assert s[1..] == "tmp}" + rest;
    ReplacePast("tmp}", rest, DIR, runDir);
    assert ['{'] + ("tmp}" + Replace(rest, DIR, runDir)) == TMP + Replace(rest, DIR, runDir);
  }

  lemma SubstitutedTmp(rest: string, runDir: string, tmpDir: string)
    ensures Substituted(TMP + rest, runDir, tmpDir) == tmpDir + Substituted(rest, runDir, tmpDir)
  {
    ReplaceKeepsTmp(rest, runDir);
    var inner := TMP + Replace(rest, DIR, runDir);
    assert inner[5..] == Replace(rest, DIR, runDir);
  }

  lemma SubstitutedDir(rest: string, runDir: string, tmpDir: string)
    requires BraceFree(runDir)
    ensures Substituted(DIR + rest, runDir, tmpDir) == runDir + Substituted(rest, runDir, tmpDir)
  {
    assert (DIR + rest)[5..] == rest;
    ReplacePast(runDir, Replace(rest, DIR, runDir), TMP, tmpDir);
  }

  lemma SubstitutedPlain(c: char, rest: string, runDir: string, tmpDir: string)
    requires c !in {'{', '}'}
    ensures Substituted([c] + rest, runDir, tmpDir) == [c] + Substituted(rest, runDir, tmpDir)
  {
    ReplacePast([c], rest, DIR, runDir);
    ReplacePast([c], Replace(rest, DIR, runDir), TMP, tmpDir);
  }

  lemma {:induction false} CleanIsDirect(tok: string, runDir: string, tmpDir: string)
    requires Clean(tok) && BraceFree(runDir) && BraceFree(tmpDir)
    ensures Substituted(tok, runDir, tmpDir) == Direct(tok, runDir, tmpDir)
    ensures BraceFree(Substituted(tok, runDir, tmpDir))
    decreases |tok|
  {
    if tok != "" {
      if DIR <= tok {
        assert tok == DIR + tok[5..];
        SubstitutedDir(tok[5..], runDir, tmpDir);
        CleanIsDirect(tok[5..], runDir, tmpDir);
      } else if TMP <= tok {
        assert tok == TMP + tok[5..];
        SubstitutedTmp(tok[5..], runDir, tmpDir);
        CleanIsDirect(tok[5..], runDir, tmpDir);
      } else {
        assert tok == [tok[0]] + tok[1..];
        SubstitutedPlain(tok[0], tok[1..], runDir, tmpDir);
        CleanIsDirect(tok[1..], runDir, tmpDir);
      }
    }
  }

  // ---- a placeholder that is left shows as a brace ----

  lemma ReplaceHead(s: string)
    requires s != ""
    ensures Replace(s, DIR, "/") == if DIR <= s then "/" + Replace(s[5..], DIR, "/")
                                    else [s[0]] + Replace(s[1..], DIR, "/")
  {
  }

  /** A character the slash cannot hide came from the token itself. */
  lemma FirstCharSurvives(s: string, c: char, rest: string)
    requires c != '/' && [c] + rest == Replace(s, DIR, "/")
    ensures s != "" && s[0] == c && !(DIR <= s) && rest == Replace(s[1..], DIR, "/")
  {
    assert ([c] + rest)[0] == c && ([c] + rest)[1..] == rest;
    if s != "" {
      ReplaceHead(s);
      assert ([s[0]] + Replace(s[1..], DIR, "/"))[1..] == Replace(s[1..], DIR, "/");
    }
  }

  lemma TmpWasThere(s: string, rest: string)
    requires TMP + rest == Replace(s, DIR, "/")
    ensures TMP <= s
  {
    assert TMP + rest == ['{'] + (['t'] + (['m'] + (['p'] + (['}'] + rest))));
    FirstCharSurvives(s, '{', ['t'] + (['m'] + (['p'] + (['}'] + rest))));
    FirstCharSurvives(s[1..], 't', ['m'] + (['p'] + (['}'] + rest)));
    FirstCharSurvives(s[2..], 'm', ['p'] + (['}'] + rest));
    FirstCharSurvives(s[3..], 'p', ['}'] + rest);
    FirstCharSurvives(s[4..], '}', rest);
    assert s[..5] == TMP;
  }

  lemma {:induction false} BraceFreeIsClean(tok: string)
    requires BraceFree(Substituted(tok, "/", "/"))
    ensures Clean(tok)
    decreases |tok|
  {
    if tok != "" {
      if DIR <= tok {
        assert tok == DIR + tok[5..];
        SubstitutedDir(tok[5..], "/", "/");
        BraceFreeTail("/", Substituted(tok[5..], "/", "/"));
        BraceFreeIsClean(tok[5..]);
      } else if TMP <= tok {
        assert tok == TMP + tok[5..];
        SubstitutedTmp(tok[5..], "/", "/");
        BraceFreeTail("/", Substituted(tok[5..], "/", "/"));
        BraceFreeIsClean(tok[5..]);
      } else {
        assert tok == [tok[0]] + tok[1..];
        FirstIsNoBrace(tok);
        SubstitutedPlain(tok[0], tok[1..], "/", "/");
        BraceFreeTail([tok[0]], Substituted(tok[1..], "/", "/"));
        BraceFreeIsClean(tok[1..]);
      }
    }
  }

  lemma BraceFreeTail(a: string, b: string)
    requires BraceFree(a + b)
    ensures BraceFree(b)
  {
  }

  lemma FirstIsNoBrace(tok: string)
    requires tok != "" && !(DIR <= tok) && !(TMP <= tok) && BraceFree(Substituted(tok, "/", "/"))
    ensures tok[0] !in {'{', '}'}
  {
    var inner := Replace(tok, DIR, "/");
    assert inner == [tok[0]] + Replace(tok[1..], DIR, "/");
    if TMP <= inner {
      assert inner == TMP + inner[5..];
      TmpWasThere(tok, inner[5..]);
    } else {
      assert Replace(inner, TMP, "/")[0] == inner[0];
    }
  }

  /**
   * Substituting directories without braces leaves no brace exactly when the token is clean: no
   * placeholder was broken by, or formed across, another one.
   */
  lemma NoBraceLeftIffClean(tok: string)
    ensures (forall runDir, tmpDir :: BraceFree(runDir) && BraceFree(tmpDir) ==>
               BraceFree(Substituted(tok, runDir, tmpDir))) <==> Clean(tok)
  {
    if Clean(tok) {
      forall runDir, tmpDir | BraceFree(runDir) && BraceFree(tmpDir)
        ensures BraceFree(Substituted(tok, runDir, tmpDir))
      {
        CleanIsDirect(tok, runDir, tmpDir);
      }
    } else if forall runDir, tmpDir :: BraceFree(runDir) && BraceFree(tmpDir) ==>
                BraceFree(Substituted(tok, runDir, tmpDir)) {
      assert BraceFree("/");
      BraceFreeIsClean(tok);
    }
  }

  // ---- whole templates ----

  lemma {:induction false} NothingToReplace(s: string, word: string, insert: string)
    requires word != "" && !Contains(s, word)
    ensures Replace(s, word, insert) == s
  {
    if s != "" {
      NothingToReplace(s[1..], word, insert);
      assert [s[0]] + s[1..] == s;
    }
  }

  lemma {:induction false} NoBraceIsClean(tok: string)
    requires BraceFree(tok)
    ensures Clean(tok)
    decreases |tok|
  {
    if tok != "" {
      assert tok[0] in tok;
      NoBraceIsClean(tok[1..]);
    }
  }

  lemma SelectorIsNotClean(tok: string)
    requires IsSelector(tok)
    ensures !Clean(tok)
  {
    assert tok[0] == '{' && tok[1] == 'f';
  }

  /** Every clean token passes registration. */
  lemma CleanIsAccepted(tok: string)
    requires Clean(tok)
    ensures Accepts(tok)
  {
    CleanIsDirect(tok, "", "");
  }

  lemma PlainTokenIsClean(tok: string)
    requires Accepts(tok) && !IsSelector(tok) && !Embeds(tok)
    ensures Clean(tok) && BraceFree(tok)
  {
    NothingToReplace(tok, DIR, "");
    NothingToReplace(tok, TMP, "");
    NoBraceIsClean(tok);
  }

  /**
   * A registered token delivers its matches or one finished argument, for all directories without
   * braces, exactly when it is sendable.
   */
  lemma ExpansionIsComplete(tok: string, find: string -> seq<string>)
    requires Accepts(tok)
    ensures (forall runDir, tmpDir :: BraceFree(runDir) && BraceFree(tmpDir) ==>
               var r := ExpandToken(tok, runDir, tmpDir, find);
               r.Ok? ==> Delivered(tok, r.value, find))
            <==> Sendable(tok)
  {
    if IsSelector(tok) {
      SelectorIsNotClean(tok);
    }
    if Embeds(tok) {
      NoBraceLeftIffClean(tok);
      EmbeddedDelivery(tok, find);
    } else if !IsSelector(tok) {
      PlainTokenIsClean(tok);
    }
  }

  lemma EmbeddedDelivery(tok: string, find: string -> seq<string>)
    requires Embeds(tok)
    ensures forall runDir, tmpDir ::
              var r := ExpandToken(tok, runDir, tmpDir, find);
              r.Ok? && (Delivered(tok, r.value, find) <==> BraceFree(Substituted(tok, runDir, tmpDir)))
  {
  }

  function Flatten(parts: seq<seq<string>>): seq<string> {
    if parts == [] then [] else parts[0] + Flatten(parts[1..])
  }

  /** An expanded template of sendable tokens is, token by token, what its tokens stand for. */
  lemma {:induction false} ArgvIsDelivered(template: seq<string>, runDir: string, tmpDir: string,
                                           find: string -> seq<string>)
    returns (parts: seq<seq<string>>)
    requires forall t :: t in template ==> Accepts(t) && Sendable(t)
    requires BraceFree(runDir) && BraceFree(tmpDir)
    requires ExpandArgv(template, runDir, tmpDir, find).Ok?
    ensures |parts| == |template| && ExpandArgv(template, runDir, tmpDir, find).value == Flatten(parts)
    ensures forall i :: 0 <= i < |template| ==> Delivered(template[i], parts[i], find)
  {
    if template == [] {
      parts := [];
    } else {
      var first := ExpandToken(template[0], runDir, tmpDir, find).value;
      assert template[0] in template;
      ExpansionIsComplete(template[0], find);
      var rest := ArgvIsDelivered(template[1..], runDir, tmpDir, find);
      parts := [first] + rest;
      assert parts[1..] == rest;
    }
  }

  lemma {:induction false} ContainsAt(a: string, word: string, b: string)
    ensures Contains(a + (word + b), word)
  {
    if a == "" {
      assert a + (word + b) == word + b;
    } else {
      assert (a + (word + b))[1..] == a[1..] + (word + b);
      ContainsAt(a[1..], word, b);
    }
  }

  /** A brace that opens nothing, and what follows it up to the next brace, stay as they are. */
  lemma ReplacePastBrace(a: string, b: string, word: string, insert: string)
    requires word != "" && word[0] == '{' && '{' !in a && !(word <= ['{'] + (a + b))
    ensures Replace(['{'] + (a + b), word, insert) == ['{'] + (a + Replace(b, word, insert))
  {
    var s := ['{'] + (a + b);
    assert s[0] == '{' && s[1..] == a + b;
    ReplacePast(a, b, word, insert);
  }

  /** The token that embeds `{dir}` after `a` and ends in `z`, with the run directory in its place. */
  lemma DirBetween(a: string, z: string, runDir: string)
    requires a != "" && a[0] != 'd' && '{' !in a && '{' !in z
    ensures Replace(['{'] + (a + (DIR + z)), DIR, runDir) == ['{'] + (a + (runDir + z))
  {
    var b := DIR + z;
    assert (['{'] + (a + b))[1] == a[0];
    ReplacePastBrace(a, b, DIR, runDir);
    assert b[5..] == z;
    assert z + "" == z;
    ReplacePast(z, "", DIR, runDir);
  }

  lemma NoTmpIn(s: string, tmpDir: string)
    requires '{' !in s && !(TMP <= ['{'] + s)
    ensures Replace(['{'] + s, TMP, tmpDir) == ['{'] + s
  {
    assert s + "" == s;
    ReplacePastBrace(s, "", TMP, tmpDir);
  }

  /** Registered, and yet the glob is never looked up: the run directory replaces `{dir}` inside it. */
  lemma GlobWithDirIsSentLiterally(runDir: string, tmpDir: string, find: string -> seq<string>)
    requires BraceFree(runDir)
    ensures var tok := ['{'] + ("file:" + (DIR + "/*}"));
            Accepts(tok) && !Sendable(tok) &&
            ExpandToken(tok, runDir, tmpDir, find) == Ok([['{'] + ("file:" + (runDir + "/*}"))])
  {
    var tok := ['{'] + ("file:" + (DIR + "/*}"));
    assert tok == ['{', 'f', 'i', 'l', 'e', ':'] + (DIR + "/*}");
    ContainsAt(['{', 'f', 'i', 'l', 'e', ':'], DIR, "/*}");
    assert FILE_OPEN <= tok && |tok| == 14 && tok[13] == '}';
    assert '\n' !in tok;
    assert IsSelector(tok);
    DirBetween("file:", "/*}", runDir);
    var s := "file:" + (runDir + "/*}");
    assert s[0] == 'f' && (['{'] + s)[1] == 'f';
    NoTmpIn(s, tmpDir);
  }

  /** Registered, because taking `{dir}` out forms a `{tmp}`, and sent with both braces still in it. */
  lemma FormedPlaceholderIsSentLiterally(runDir: string, tmpDir: string, find: string -> seq<string>)
    requires BraceFree(runDir) && runDir != ""
    ensures var tok := ['{'] + ("t" + (DIR + "mp}"));
            Accepts(tok) && !Sendable(tok) &&
            ExpandToken(tok, runDir, tmpDir, find) == Ok([['{'] + ("t" + (runDir + "mp}"))])
  {
    var tok := ['{'] + ("t" + (DIR + "mp}"));
    assert tok == ['{', 't'] + (DIR + "mp}");
    ContainsAt(['{', 't'], DIR, "mp}");
    DirBetween("t", "mp}", "");
    assert ['{'] + ("t" + ("" + "mp}")) == TMP + "";
    SubstitutedResidual(tok);
    assert tok[1] == 't' && tok[2] == '{';
    DirBetween("t", "mp}", runDir);
    var s := "t" + (runDir + "mp}");
    assert (['{'] + s)[4] == s[3] && s[3] != '}';
    NoTmpIn(s, tmpDir);
  }

  lemma SubstitutedResidual(tok: string)
    requires Replace(tok, DIR, "") == TMP + ""
    ensures BraceFree(Substituted(tok, "", ""))
  {
    var formed := TMP + "";
    assert TMP <= formed && formed != "" && formed[5..] == "";
    assert Replace(formed, TMP, "") == "" + Replace(formed[5..], TMP, "");
  }

  // ---- what each kind of token becomes, and when expansion fails ----

  predicate OneLine(g: string) { g != "" && '\n' !in g }

  lemma GlobOf(open: string, g: string)
    requires OneLine(g) && '\n' !in open
    ensures Glob(open + g + "}", open) == Some(g)
  {
    var tok := open + g + "}";
    assert tok[..|open|] == open && tok[|open|..|tok| - 1] == g;
    assert tok[|tok| - 1] == '}';
  }

  /** What a selector's pattern matches: the opening, a glob of one line, the brace, and at most one newline. */
  lemma GlobExactly(tok: string, open: string, g: string)
    requires '\n' !in open
    ensures Glob(tok, open) == Some(g) <==> OneLine(g) && (tok == open + g + "}" || tok == open + g + "}" + "\n")
  {
    if OneLine(g) && (tok == open + g + "}" || tok == open + g + "}" + "\n") {
      GlobOf(open, g);
      assert (open + g + "}" + "\n")[..|open + g + "}"|] == open + g + "}";
      assert Ids.BeforeFinalNewline(tok) == open + g + "}";
    }
    if Glob(tok, open) == Some(g) {
      PartsOfSelector(Ids.BeforeFinalNewline(tok), open, g);
      assert tok == Ids.BeforeFinalNewline(tok) || tok == Ids.BeforeFinalNewline(tok) + "\n";
    }
  }

  lemma PartsOfSelector(t: string, open: string, g: string)
    requires open <= t && |t| > |open| + 1 && t[|t| - 1] == '}' && '\n' !in t && g == t[|open|..|t| - 1]
    ensures OneLine(g) && t == open + g + "}"
  {
    assert forall c :: c in g ==> c in t;
  }

  lemma NotTheOtherSelector(g: string)
    ensures Glob("{files:" + g + "}", "{file:") == None
  {
    var tok := "{files:" + g + "}";
    assert tok[5] == 's' && "{file:"[5] == ':';
  }

  /** `{file:GLOB}` is the single match, and any other number of matches is an error that says how many. */
  lemma FileTokenExpands(g: string, runDir: string, tmpDir: string, find: string -> seq<string>)
    requires OneLine(g) && !Embeds("{file:" + g + "}")
    ensures ExpandToken("{file:" + g + "}", runDir, tmpDir, find) ==
            if |find(g)| == 1 then Ok(find(g)) else Err(NotExactlyOne(|find(g)|))
  {
    GlobOf("{file:", g);
  }

  /** `{files:GLOB}` is all the matches, and an error if there are none. */
  lemma FilesTokenExpands(g: string, runDir: string, tmpDir: string, find: string -> seq<string>)
    requires OneLine(g) && !Embeds("{files:" + g + "}")
    ensures ExpandToken("{files:" + g + "}", runDir, tmpDir, find) ==
            if find(g) != [] then Ok(find(g)) else Err(NoMatch)
  {
    GlobOf("{files:", g);
    NotTheOtherSelector(g);
  }

  /** A token without braces stays as it is. */
  lemma PlainTokenStays(tok: string, runDir: string, tmpDir: string, find: string -> seq<string>)
    requires BraceFree(tok)
    ensures ExpandToken(tok, runDir, tmpDir, find) == Ok([tok])
  {
    NoPlaceholder(tok, DIR);
    NoPlaceholder(tok, TMP);
    assert FILE_OPEN[0] == '{' && FILES_OPEN[0] == '{';
  }

  lemma {:induction false} NoPlaceholder(tok: string, word: string)
    requires '{' !in tok && word != "" && word[0] == '{'
    ensures !Contains(tok, word)
  {
    if tok != "" {
      NoPlaceholder(tok[1..], word);
    }
  }

  /** A clean token becomes one argument: its text with the directories in place of the placeholders. */
  lemma CleanTokenExpands(tok: string, runDir: string, tmpDir: string, find: string -> seq<string>)
    requires Clean(tok) && BraceFree(runDir) && BraceFree(tmpDir)
    ensures ExpandToken(tok, runDir, tmpDir, find) == Ok([Direct(tok, runDir, tmpDir)])
  {
    CleanIsDirect(tok, runDir, tmpDir);
    if IsSelector(tok) {
      SelectorIsNotClean(tok);
      assert false;
    }
    if !Embeds(tok) {
      NothingToReplace(tok, DIR, runDir);
      NothingToReplace(tok, TMP, tmpDir);
    }
  }

  /** A token with a brace that is neither a selector nor embeds a placeholder is not registered. */
  lemma TyposAreRefused(tok: string)
    requires !BraceFree(tok) && !IsSelector(tok) && !Embeds(tok)
    ensures !Accepts(tok)
  {
    if Accepts(tok) {
      PlainTokenIsClean(tok);
    }
  }

  /** One brace that belongs to no placeholder is enough for a token to be refused. */
  lemma StrayBraceIsRefused(a: string, c: char, b: string)
    requires Clean(a) && Clean(b) && (c == '{' || c == '}') && !IsSelector(a + ([c] + b))
    ensures !Accepts(a + ([c] + b))
  {
    StrayBraceStays(a, c, b);
    assert c in Direct(a, "", "") + ([c] + Direct(b, "", ""));
  }

  lemma {:induction false} StrayBraceStays(a: string, c: char, b: string)
    requires Clean(a) && Clean(b) && (c == '{' || c == '}')
    ensures Substituted(a + ([c] + b), "", "") == Direct(a, "", "") + ([c] + Direct(b, "", ""))
    decreases |a|
  {
    if a == "" {
      StrayInFront(c, b);
      assert a + ([c] + b) == [c] + b;
      assert "" + ([c] + Direct(b, "", "")) == [c] + Direct(b, "", "");
    } else if DIR <= a {
      StrayBraceStays(a[5..], c, b);
      BehindDir(a, [c] + b, [c] + Direct(b, "", ""));
    } else if TMP <= a {
      StrayBraceStays(a[5..], c, b);
      BehindTmp(a, [c] + b, [c] + Direct(b, "", ""));
    } else {
      StrayBraceStays(a[1..], c, b);
      BehindPlain(a, [c] + b, [c] + Direct(b, "", ""));
    }
  }

  lemma BehindDir(a: string, z: string, out: string)
    requires DIR <= a && Substituted(a[5..] + z, "", "") == Direct(a[5..], "", "") + out
    ensures Substituted(a + z, "", "") == Direct(a, "", "") + out
  {
    assert a == DIR + a[5..] && a + z == DIR + (a[5..] + z);
    SubstitutedDir(a[5..] + z, "", "");
    assert "" + (Direct(a[5..], "", "") + out) == "" + Direct(a[5..], "", "") + out;
  }

  lemma BehindTmp(a: string, z: string, out: string)
    requires TMP <= a && Substituted(a[5..] + z, "", "") == Direct(a[5..], "", "") + out
    ensures Substituted(a + z, "", "") == Direct(a, "", "") + out
  {
    StartsWithTmp(a, z);
    SubstitutedTmp(a[5..] + z, "", "");
  }

  lemma StartsWithTmp(a: string, z: string)
    requires TMP <= a
    ensures a + z == TMP + (a[5..] + z) && Direct(a, "", "") == Direct(a[5..], "", "")
  {
    assert a == TMP + a[5..] && a[1] == 't' && !(DIR <= a);
    assert "" + Direct(a[5..], "", "") == Direct(a[5..], "", "");
  }

  lemma BehindPlain(a: string, z: string, out: string)
    requires a != "" && !(DIR <= a) && !(TMP <= a) && a[0] !in {'{', '}'}
    requires Substituted(a[1..] + z, "", "") == Direct(a[1..], "", "") + out
    ensures Substituted(a + z, "", "") == Direct(a, "", "") + out
  {
    StartsPlain(a, z);
    SubstitutedPlain(a[0], a[1..] + z, "", "");
    Regrouped([a[0]], Direct(a[1..], "", ""), out);
  }

  lemma StartsPlain(a: string, z: string)
    requires a != "" && !(DIR <= a) && !(TMP <= a)
    ensures a + z == [a[0]] + (a[1..] + z) && Direct(a, "", "") == [a[0]] + Direct(a[1..], "", "")
  {
  }

  lemma Regrouped(a: string, b: string, c: string)
    ensures a + (b + c) == a + b + c
  {
  }

  /** A clean text has no closing brace of its own to end a `{tmp}` with, nor has it once `{dir}` is gone. */
  lemma {:induction false} NoTmpFormed(b: string, w: string)
    requires Clean(b) && w in {"tmp}", "mp}", "p}", "}"}
    ensures !(w <= Replace(b, DIR, ""))
    decreases |b|
  {
    if b != "" {
      if DIR <= b {
        NoTmpFormed(b[5..], w);
      } else if TMP <= b {
        assert Replace(b, DIR, "")[0] == '{' && w[0] != '{';
      } else {
        var rest := Replace(b[1..], DIR, "");
        assert Replace(b, DIR, "") == [b[0]] + rest && ([b[0]] + rest)[0] != '}';
        if w != "}" {
          NoTmpFormed(b[1..], w[1..]);
          NotBehind(b[0], rest, w);
        }
      }
    }
  }

  lemma NotBehind(c: char, rest: string, w: string)
    requires |w| > 1 && !(w[1..] <= rest)
    ensures !(w <= [c] + rest)
  {
  }

  lemma {:induction false} NoDirFormed(b: string, w: string)
    requires Clean(b) && w in {"dir}", "ir}", "r}", "}"}
    ensures !(w <= b)
  {
    if b != "" && b[0] != '{' && w != "}" {
      NoDirFormed(b[1..], w[1..]);
      NotBehind(b[0], b[1..], w);
      assert b == [b[0]] + b[1..];
    }
  }

  lemma StrayInFront(c: char, b: string)
    requires Clean(b) && (c == '{' || c == '}')
    ensures Substituted([c] + b, "", "") == [c] + Direct(b, "", "")
  {
    CleanIsDirect(b, "", "");
    if c == '}' {
      ReplacePast([c], b, DIR, "");
      ReplacePast([c], Replace(b, DIR, ""), TMP, "");
    } else {
      NoDirFormed(b, "dir}");
      OpensNothing(b, DIR, "dir}");
      NoTmpFormed(b, "tmp}");
      OpensNothing(Replace(b, DIR, ""), TMP, "tmp}");
    }
  }

  lemma OpensNothing(b: string, word: string, rest: string)
    requires word == ['{'] + rest && rest != "" && !(rest <= b)
    ensures Replace(['{'] + b, word, "") == ['{'] + Replace(b, word, "")
  {
    assert word[1..] == rest;
    NotBehind('{', b, word);
    assert (['{'] + b)[1..] == b;
  }

  /** An expansion fails exactly when one of its tokens does, and with the error of the first one. */
  lemma {:induction false} FirstErrorWins(template: seq<string>, runDir: string, tmpDir: string,
                                          find: string -> seq<string>)
    ensures ExpandArgv(template, runDir, tmpDir, find).Ok? <==>
            forall t :: t in template ==> ExpandToken(t, runDir, tmpDir, find).Ok?
    ensures forall e :: ExpandArgv(template, runDir, tmpDir, find) == Err(e) ==>
              exists i :: 0 <= i < |template| && ExpandToken(template[i], runDir, tmpDir, find) == Err(e) &&
                          forall j :: 0 <= j < i ==> ExpandToken(template[j], runDir, tmpDir, find).Ok?
  {
    if template != [] {
      FirstErrorWins(template[1..], runDir, tmpDir, find);
      assert template == [template[0]] + template[1..];
      FirstErrorStands(template, runDir, tmpDir, find);
    }
  }

  lemma FirstErrorStands(template: seq<string>, runDir: string, tmpDir: string, find: string -> seq<string>)
    requires template != []
    requires forall e :: ExpandArgv(template[1..], runDir, tmpDir, find) == Err(e) ==>
               exists i :: 0 <= i < |template[1..]| && ExpandToken(template[1..][i], runDir, tmpDir, find) == Err(e) &&
                           forall j :: 0 <= j < i ==> ExpandToken(template[1..][j], runDir, tmpDir, find).Ok?
    ensures forall e :: ExpandArgv(template, runDir, tmpDir, find) == Err(e) ==>
              exists i :: 0 <= i < |template| && ExpandToken(template[i], runDir, tmpDir, find) == Err(e) &&
                          forall j :: 0 <= j < i ==> ExpandToken(template[j], runDir, tmpDir, find).Ok?
  {
    forall e | ExpandArgv(template, runDir, tmpDir, find) == Err(e)
      ensures exists i :: 0 <= i < |template| && ExpandToken(template[i], runDir, tmpDir, find) == Err(e) &&
                          forall j :: 0 <= j < i ==> ExpandToken(template[j], runDir, tmpDir, find).Ok?
    {
      if ExpandToken(template[0], runDir, tmpDir, find).Ok? {
        var i :| 0 <= i < |template[1..]| && ExpandToken(template[1..][i], runDir, tmpDir, find) == Err(e) &&
                 forall j :: 0 <= j < i ==> ExpandToken(template[1..][j], runDir, tmpDir, find).Ok?;
        assert template[i + 1] == template[1..][i];
        forall j | 0 <= j < i + 1
          ensures ExpandToken(template[j], runDir, tmpDir, find).Ok?
        {
          if j > 0 { assert template[j] == template[1..][j - 1]; }
        }
      } else {
        assert ExpandToken(template[0], runDir, tmpDir, find) == Err(e);
      }
    }
  }
}
