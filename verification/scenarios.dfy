/** Concrete pages and configurations, worked through the gate. */
module GateScenarios {
  import opened Options
  import opened AsciiText
  import opened CustomCssGate
  import opened GateProperties

  const Host: string := "https://contoso.sharepoint.com"
  const Path: string := "/sites/a/home.aspx"
  const Page: string := Host + Path

  /** A configuration with no field set. */
  const Unset: Properties := Properties(None, None, None, None, None)

  lemma PageIsLowerCase()
    ensures Lower(Page) == Page
  {
    assert forall i :: 0 <= i < |Host| ==> !IsAsciiUpper(Host[i]);
    assert forall i :: 0 <= i < |Path| ==> !IsAsciiUpper(Path[i]);
    forall i | 0 <= i < |Page|
      ensures !IsAsciiUpper(Page[i])
    {
      if i >= |Host| {
        assert Page[i] == Path[i - |Host|];
      }
    }
    LowerOfLowerCase(Page);
  }

  /** No slash in the page address is followed by a "t". */
  lemma NoSlashBeforeT()
    ensures forall i :: 0 <= i < |Page| - 1 ==> !(Page[i] == '/' && Page[i + 1] == 't')
  {
    assert forall j :: 0 <= j < |Host| - 1 ==> !(Host[j] == '/' && Host[j + 1] == 't');
    assert forall j :: 0 <= j < |Path| - 1 ==> !(Path[j] == '/' && Path[j + 1] == 't');
    forall i | 0 <= i < |Page| - 1
      ensures !(Page[i] == '/' && Page[i + 1] == 't')
    {
      if i + 1 < |Host| {
        assert Page[i] == Host[i] && Page[i + 1] == Host[i + 1];
      } else if i < |Host| {
        assert Page[i + 1] == Path[0];
      } else {
        assert Page[i] == Path[i - |Host|] && Page[i + 1] == Path[i - |Host| + 1];
      }
    }
  }

  /** Hence "/teamsite" occurs nowhere in the page address. */
  lemma TeamsiteNotInPage()
    ensures !Contains(Page, "/teamsite")
  {
    if Contains(Page, "/teamsite") {
      var i :| OccursAt(Page, "/teamsite", i);
      var window := Page[i..i + 9];
      assert window == "/teamsite";
      assert window[0] == '/' && window[1] == 't';
      assert Page[i] == window[0] && Page[i + 1] == window[1];
      NoSlashBeforeT();
      assert false;
    }
  }

  /** Excluding "/home" suppresses the page. */
  lemma ExcludedPage()
    ensures Decide(Page, Unset.(excludeUrls := Some(["/home"]))) == []
  {
    PageIsLowerCase();
    assert Page[38..43] == Path[8..13] == "/home";
    assert Lower("/home") == "/home";
    assert OccursAt(Page, "/home", 38);
    ExclusionWins(Page, Unset.(excludeUrls := Some(["/home"])), 0);
  }

  /** Including "/sites/a" applies the bundled stylesheet only. */
  lemma IncludedPage()
    ensures Decide(Page, Unset.(includeUrls := Some(["/sites/a"]))) == [Internal]
  {
    PageIsLowerCase();
    assert Page[30..38] == Path[..8] == "/sites/a";
    assert Lower("/sites/a") == "/sites/a";
    assert OccursAt(Page, "/sites/a", 30);
    MatchedIncludeApplies(Page, Unset.(includeUrls := Some(["/sites/a"])), 0);
  }

  /** Including only "/teamsite", which the address lacks, suppresses it. */
  lemma NotIncludedPage()
    ensures Decide(Page, Unset.(includeUrls := Some(["/teamsite"]))) == []
  {
    PageIsLowerCase();
    TeamsiteNotInPage();
    assert Lower("/teamsite") == "/teamsite";
    var props := Unset.(includeUrls := Some(["/teamsite"]));
    UnmatchedIncludeSuppresses(Page, props);
  }

  /** Only the external stylesheet when the bundled one is switched off. */
  lemma ExternalOnly()
    ensures Decide(Page, Unset.(cssUrl := Some("https://cdn.example.com/x.css"), useInternalCss := Some(false)))
         == [External("https://cdn.example.com/x.css")]
  {
  }

  /** With nothing configured, only the bundled stylesheet loads. */
  lemma NothingConfigured()
    ensures Decide(Page, Unset) == [Internal]
  {
  }

  /** The address of the site's home folder. */
  const Folder: string := Host + "/sites/a/home/"

  lemma FolderIsLowerCase()
    ensures Lower(Folder) == Folder
  {
    assert forall i :: 0 <= i < |Host| ==> !IsAsciiUpper(Host[i]);
    assert forall i :: 0 <= i < 14 ==> !IsAsciiUpper("/sites/a/home/"[i]);
    forall i | 0 <= i < |Folder|
      ensures !IsAsciiUpper(Folder[i])
    {
      if i >= |Host| {
        assert Folder[i] == "/sites/a/home/"[i - |Host|];
      }
    }
    LowerOfLowerCase(Folder);
  }

  /** A capitalised pattern matches the lower-case address. */
  lemma CapitalisedPatternMatches()
    ensures Decide(Folder, Unset.(includeUrls := Some(["Home"]))) == [Internal]
  {
    FolderIsLowerCase();
    assert Lower("Home") == "home";
    assert Folder[39..43] == "/sites/a/home/"[9..13] == "home";
    assert OccursAt(Folder, "home", 39);
    MatchedIncludeApplies(Folder, Unset.(includeUrls := Some(["Home"])), 0);
  }

  /** Reordering two matching exclude patterns leaves the loads alone but
      changes which pattern the trace reports. */
  lemma ReportedPatternFollowsOrder()
    ensures var ab := Unset.(excludeUrls := Some(["/sites", "/home"]), enableDebug := Some(true));
            var ba := Unset.(excludeUrls := Some(["/home", "/sites"]), enableDebug := Some(true));
            && Decide(Page, ab) == Decide(Page, ba) == []
            && DebugTrace(Page, ab)[3] == ExcludeMatched("/sites")
            && DebugTrace(Page, ba)[3] == ExcludeMatched("/home")
  {
    var ab := Unset.(excludeUrls := Some(["/sites", "/home"]), enableDebug := Some(true));
    var ba := Unset.(excludeUrls := Some(["/home", "/sites"]), enableDebug := Some(true));
    PageIsLowerCase();
    assert Lower("/sites") == "/sites";
    assert Lower("/home") == "/home";
    assert OccursAt(Page, "/sites", 30);
    assert OccursAt(Page, "/home", 38);
    assert Gate(Page, ab) == ExcludedBy(0);
    assert Gate(Page, ba) == ExcludedBy(0);
  }
}
