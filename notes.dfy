/** The forbidden terms the web form's free-text field yields: the text is
    cut at every `,`, `;` and `/`, and each piece is stripped and
    lower-cased; blank pieces are dropped. */
module Notes {
  import opened Text
  import opened Recipes

  /** The `parts` list the two nested loops build: the text split on `,`,
      each part split on `;`, each of those split on `/`, in order. */
  function Pieces(notes: string): seq<string>
  {
    SplitEach(SplitEach(Split(notes, ','), ';'), '/')
  }

  /** The `forbidden` list: empty for an empty text, otherwise the
      normalized pieces. */
  function Tokens(notes: string): seq<string>
  {
    if notes == "" then [] else NormalizeTerms(Pieces(notes))
  }

  /** The tokenising step of the form handler. */
  method ForbiddenTerms(notes: string) returns (forbidden: seq<string>)
    ensures forbidden == Tokens(notes)
    ensures forall i :: 0 <= i < |forbidden| ==>
      forbidden[i] != "" && Strip(forbidden[i]) == forbidden[i] && Lower(forbidden[i]) == forbidden[i]
    ensures forall i :: 0 <= i < |forbidden| ==>
      ',' !in forbidden[i] && ';' !in forbidden[i] && '/' !in forbidden[i]
  {
    forbidden := [];
    if notes != "" {
      var parts: seq<string> := [];
      var commaParts := Split(notes, ',');
      for i := 0 to |commaParts|
        invariant parts == SplitEach(SplitEach(commaParts[..i], ';'), '/')
      {
        var subs := Split(commaParts[i], ';');
        ghost var done := SplitEach(commaParts[..i], ';');
        assert done + subs[..0] == done;
        for j := 0 to |subs|
          invariant parts == SplitEach(done + subs[..j], '/')
        {
          SplitEachPrefixSnoc(done, subs, j, '/');
          parts := parts + Split(subs[j], '/');
        }
        assert subs[..|subs|] == subs;
        SplitEachPrefix(commaParts, i, ';');
      }
      assert commaParts[..|commaParts|] == commaParts;
      forbidden := NormalizeTerms(parts);
    }
    TokensClean(notes);
  }

  /** The guard on an empty text changes nothing: the empty text splits
      into one blank piece, which is dropped. */
  lemma EmptyNotesGuard(notes: string)
    ensures Tokens(notes) == NormalizeTerms(Pieces(notes))
  {
    if notes == "" {
      assert Pieces(notes) == [""] by { EmptyPieces(); }
      assert NormalizeTerms([""]) == [] by { NormalizeBlank(); }
    }
  }

  /** The empty text is one empty piece. */
  lemma EmptyPieces()
    ensures Pieces("") == [""]
  {
    assert Split("", ',') == [""];
    assert SplitEach([""], ';') == [""] by { SplitEachOne("", ';'); }
    assert SplitEach([""], '/') == [""] by { SplitEachOne("", '/'); }
  }

  /** One empty piece yields no term. */
  lemma NormalizeBlank()
    ensures NormalizeTerms([""]) == []
  {
    assert Strip("") == "" by { StripEmptyIff(""); }
    assert [""][..0] == [];
  }

  /** Every term is a stripped, lower-case, non-blank piece of the text
      without a separator. */
  lemma TokensClean(notes: string)
    ensures forall i :: 0 <= i < |Tokens(notes)| ==>
      Tokens(notes)[i] != "" && Strip(Tokens(notes)[i]) == Tokens(notes)[i] && Lower(Tokens(notes)[i]) == Tokens(notes)[i]
    ensures forall i :: 0 <= i < |Tokens(notes)| ==>
      ',' !in Tokens(notes)[i] && ';' !in Tokens(notes)[i] && '/' !in Tokens(notes)[i]
  {
    EmptyNotesGuard(notes);
    var ts := NormalizeTerms(Pieces(notes));
    NormalizedTermsClean(Pieces(notes));
    forall i | 0 <= i < |ts|
      ensures ts[i] != "" && Strip(ts[i]) == ts[i] && Lower(ts[i]) == ts[i]
      ensures ',' !in ts[i] && ';' !in ts[i] && '/' !in ts[i]
    {
      assert ts[i] in ts;
      TokenSeparatorFree(notes, ts[i]);
    }
  }

  /** A normalized piece holds none of the three separators. */
  lemma TokenSeparatorFree(notes: string, t: string)
    requires t in NormalizeTerms(Pieces(notes))
    ensures ',' !in t && ';' !in t && '/' !in t
  {
    NormalizedTerms(Pieces(notes));
    var f :| f in Pieces(notes) && Strip(f) != "" && t == Lower(Strip(f));
    PieceSeparatorFree(notes, f);
    StripLowerKeeps(f, ',');
    StripLowerKeeps(f, ';');
    StripLowerKeeps(f, '/');
  }

  /** A piece holds none of the three separators. */
  lemma PieceSeparatorFree(notes: string, f: string)
    requires f in Pieces(notes)
    ensures ',' !in f && ';' !in f && '/' !in f
  {
    var commas := Split(notes, ',');
    var semis := SplitEach(commas, ';');
    SplitSeparatorFree(notes, ',');
    SplitEachSeparatorFree(commas, ';');
    SplitEachSeparatorFree(semis, '/');
    SplitEachKeeps(commas, ';', ',');
    SplitEachKeeps(semis, '/', ',');
    SplitEachKeeps(semis, '/', ';');
    var i :| 0 <= i < |Pieces(notes)| && Pieces(notes)[i] == f;
  }

  /** Stripping and lower-casing never bring in a punctuation character
      below `A`. */
  lemma StripLowerKeeps(f: string, d: char)
    requires d < 'A' && d !in f
    ensures d !in Lower(Strip(f))
  {
    StripIsTrimmedSlice(f);
    var s := Strip(f);
    assert d !in s by {
      forall k | 0 <= k < |s| ensures s[k] != d {
        assert s[k] == f[LeadingSpaces(f) + k];
      }
    }
    forall k | 0 <= k < |s| ensures Lower(s)[k] != d {
      assert Lower(s)[k] == LowerChar(s[k]);
    }
  }

  /** A term is in the list exactly when some non-blank piece strips and
      lower-cases to it. */
  lemma TokensIff(notes: string, t: string)
    ensures t in Tokens(notes)
      <==> exists f :: f in Pieces(notes) && Strip(f) != "" && t == Lower(Strip(f))
  {
    EmptyNotesGuard(notes);
    NormalizedTerms(Pieces(notes));
  }

  /** `"Milk; nuts/"` forbids `milk` and `nuts`: the empty piece after the
      slash is dropped. */
  lemma MilkAndNuts()
    ensures Tokens("Milk; nuts/") == ["milk", "nuts"]
  {
    MilkAndNutsPieces();
    MilkAndNutsTerms();
  }

  lemma MilkAndNutsPieces()
    ensures Pieces("Milk; nuts/") == ["Milk", " nuts", ""]
  {
    SplitNoSeparator("Milk; nuts/", ',');
    MilkAndNutsSemicolon();
    MilkAndNutsSlash();
  }

  lemma MilkAndNutsSemicolon()
    ensures SplitEach(["Milk; nuts/"], ';') == ["Milk", " nuts/"]
  {
    SplitEachOne("Milk; nuts/", ';');
    MilkSemicolon();
  }

  lemma MilkSemicolon()
    ensures Split("Milk; nuts/", ';') == ["Milk", " nuts/"]
  {
    var a, b := "Milk", " nuts/";
    assert ';' !in a && ';' !in b;
    assert a + [';'] + b == "Milk; nuts/";
    SplitAtFirst(a, ';', b);
    SplitNoSeparator(b, ';');
  }

  lemma MilkAndNutsSlash()
    ensures SplitEach(["Milk", " nuts/"], '/') == ["Milk", " nuts", ""]
  {
    var ps := ["Milk", " nuts/"];
    assert ps[..1] == ["Milk"] && ps[..2] == ps;
    SplitNoSeparator("Milk", '/');
    SplitEachOne("Milk", '/');
    NutsSlash();
    SplitEachPrefix(ps, 1, '/');
  }

  lemma NutsSlash()
    ensures Split(" nuts/", '/') == [" nuts", ""]
  {
    var a, b := " nuts", "";
    assert '/' !in a;
    assert a + ['/'] + b == " nuts/";
    SplitAtFirst(a, '/', b);
    SplitNoSeparator(b, '/');
  }

  lemma MilkAndNutsTerms()
    ensures NormalizeTerms(["Milk", " nuts", ""]) == ["milk", "nuts"]
  {
    var pieces := ["Milk", " nuts", ""];
    MilkAndNutsWords();
    assert Strip("") == "" by { StripEmptyIff(""); }
    assert pieces[..2] == ["Milk", " nuts"] && pieces[..2][..1] == ["Milk"] && ["Milk"][..0] == [];
    assert NormalizeTerms(["Milk"]) == ["milk"];
    assert NormalizeTerms(["Milk", " nuts"]) == ["milk", "nuts"];
  }

  lemma MilkAndNutsWords()
    ensures Strip("Milk") != "" && Lower(Strip("Milk")) == "milk"
    ensures Strip(" nuts") != "" && Lower(Strip(" nuts")) == "nuts"
  {
    MilkWord();
    NutsWord();
  }

  lemma MilkWord()
    ensures Strip("Milk") == "Milk" && Lower("Milk") == "milk"
  {
    assert LeadingSpaces("Milk") == 0 && TrailingSpaces("Milk") == 0;
  }

  lemma NutsWord()
    ensures Strip(" nuts") == "nuts" && Lower("nuts") == "nuts"
  {
    assert " nuts"[1..] == "nuts";
    assert LeadingSpaces("nuts") == 0;
    assert LeadingSpaces(" nuts") == 1;
    assert TrailingSpaces("nuts") == 0;
  }
}
