/**
 Chain of responsibility with handler objects linked through `sucessor`
 (behavioral/chain_of_responsabilities/chain_of_responsability2.py).
 A chain is a value that always ends in `HandleFallback`, so following the
 successor links terminates by construction.
 */
module ChainObjects {
  import opened Python
  import ChainFunctions

  datatype Handler =
    | HandlerABC(sucessor: Handler)
    | HandleDEF(sucessor: Handler)
    | HandleFallback

  const AbcPrefix := "HandlerABC: conseguiu tartar o valor "
  const DefPrefix := "HandlerDEF: conseguiu tartar o valor "
  const FallbackPrefix := "handlers não encotraram "

  /** The `letters` attribute each handler checks; the fallback has none. */
  function Letters(h: Handler): seq<string> {
    match h
    case HandlerABC(_) => ["A", "B", "C"]
    case HandleDEF(_) => ["D", "E", "F"]
    case HandleFallback => []
  }

  /** What a handler answers when it owns the letter (or, for the fallback, always). */
  function OwnMessage(h: Handler, letter: string): string {
    match h
    case HandlerABC(_) => AbcPrefix + letter
    case HandleDEF(_) => DefPrefix + letter
    case HandleFallback => FallbackPrefix + letter
  }

  /** `handle`: answer the letter or pass it on, unchanged, to the successor. */
  function Handle(h: Handler, letter: string): (r: string)
    ensures EndsWith(r, letter)
    ensures h.HandleFallback? ==> r == FallbackPrefix + letter
    ensures h.HandlerABC? && letter in ["A", "B", "C"] ==> r == AbcPrefix + letter
    ensures h.HandleDEF? && letter in ["D", "E", "F"] ==> r == DefPrefix + letter
    ensures !h.HandleFallback? && letter !in Letters(h) ==> r == Handle(h.sucessor, letter)
    decreases h
  {
    match h
    case HandleFallback => FallbackPrefix + letter
    case _ => if letter in Letters(h) then OwnMessage(h, letter) else Handle(h.sucessor, letter)
  }

  /** Every letter any handler of the chain owns. */
  function ChainLetters(h: Handler): set<string> {
    match h
    case HandleFallback => {}
    case _ => (set l | l in Letters(h)) + ChainLetters(h.sucessor)
  }

  /** The links of the chain in `sucessor` order, starting at `h`; only the
      last is the fallback. */
  function Links(h: Handler): (ls: seq<Handler>)
    ensures |ls| >= 1 && ls[0] == h
    ensures forall j :: 0 <= j < |ls| ==> (ls[j].HandleFallback? <==> j == |ls| - 1)
    decreases h
  {
    match h
    case HandleFallback => [h]
    case _ => [h] + Links(h.sucessor)
  }

  /** Each link but the last passes letters on to the next one. */
  lemma {:induction false} LinksFollowSucessor(h: Handler, j: nat)
    requires j < |Links(h)| - 1
    ensures Links(h)[j + 1] == Links(h)[j].sucessor
    decreases h
  {
    if j > 0 {
      LinksFollowSucessor(h.sucessor, j - 1);
    }
  }

  /** The position along the chain of the first handler that owns the
      letter, or of the fallback when none does. */
  function FirstOwner(h: Handler, letter: string): (k: nat)
    ensures k < |Links(h)|
    ensures forall j :: 0 <= j < k ==> letter !in Letters(Links(h)[j])
    ensures Links(h)[k].HandleFallback? || letter in Letters(Links(h)[k])
    decreases h
  {
    match h
    case HandleFallback => 0
    case _ =>
      if letter in Letters(h) then 0
      else
        var k := FirstOwner(h.sucessor, letter);
        assert Links(h) == [h] + Links(h.sucessor);
        k + 1
  }

  /** The first owner is a real handler exactly when some link owns the letter. */
  lemma {:induction false} FirstOwnerIsFallbackIff(h: Handler, letter: string)
    ensures Links(h)[FirstOwner(h, letter)].HandleFallback? <==> letter !in ChainLetters(h)
    decreases h
  {
    match h
    case HandleFallback =>
    case _ =>
      if letter !in Letters(h) {
        FirstOwnerIsFallbackIff(h.sucessor, letter);
        assert Links(h)[FirstOwner(h, letter)] == Links(h.sucessor)[FirstOwner(h.sucessor, letter)];
      }
  }

  /** Handling a letter is answering it with the first owner's message. */
  lemma {:induction false} HandleIsFirstOwner(h: Handler, letter: string)
    ensures Handle(h, letter) == OwnMessage(Links(h)[FirstOwner(h, letter)], letter)
    decreases h
  {
    match h
    case HandleFallback =>
    case _ =>
      if letter !in Letters(h) {
        HandleIsFirstOwner(h.sucessor, letter);
        assert Links(h)[FirstOwner(h, letter)] == Links(h.sucessor)[FirstOwner(h.sucessor, letter)];
      }
  }

  /** A chain falls back exactly on the letters none of its handlers owns. */
  lemma {:induction false} FallbackIff(h: Handler, letter: string)
    ensures Handle(h, letter) == FallbackPrefix + letter <==> letter !in ChainLetters(h)
  {
    match h
    case HandleFallback =>
    case _ =>
      FallbackIff(h.sucessor, letter);
      if letter in Letters(h) {
        var r := Handle(h, letter);
        assert r[0] == 'H' != FallbackPrefix[0];
      }
  }

  /** The script's chain: ABC -> DEF -> fallback. */
  const DemoChain := HandlerABC(HandleDEF(HandleFallback))

  lemma DemoChainLetters()
    ensures ChainLetters(DemoChain) == {"A", "B", "C", "D", "E", "F"}
  {
  }

  /** The driver's loop over A..I, each letter passed through `upper()`:
      A, B and C are handled by the first link. */
  lemma DriverOutputOwnedAbc()
    ensures Handle(DemoChain, Upper("A")) == "HandlerABC: conseguiu tartar o valor A"
    ensures Handle(DemoChain, Upper("B")) == "HandlerABC: conseguiu tartar o valor B"
    ensures Handle(DemoChain, Upper("C")) == "HandlerABC: conseguiu tartar o valor C"
  {
    assert Handle(DemoChain, Upper("A")) == "HandlerABC: conseguiu tartar o valor A" by {
      UpperFixesNoLower("A");
      DemoChainAnswers("A");
    }
    assert Handle(DemoChain, Upper("B")) == "HandlerABC: conseguiu tartar o valor B" by {
      UpperFixesNoLower("B");
      DemoChainAnswers("B");
    }
    UpperFixesNoLower("C");
    DemoChainAnswers("C");
  }

  /** D, E and F, upper-cased, are handled by the second link. */
  lemma DriverOutputOwnedDef()
    ensures Handle(DemoChain, Upper("D")) == "HandlerDEF: conseguiu tartar o valor D"
    ensures Handle(DemoChain, Upper("E")) == "HandlerDEF: conseguiu tartar o valor E"
    ensures Handle(DemoChain, Upper("F")) == "HandlerDEF: conseguiu tartar o valor F"
  {
    assert Handle(DemoChain, Upper("D")) == "HandlerDEF: conseguiu tartar o valor D" by {
      UpperFixesNoLower("D");
      DemoChainAnswers("D");
    }
    assert Handle(DemoChain, Upper("E")) == "HandlerDEF: conseguiu tartar o valor E" by {
      UpperFixesNoLower("E");
      DemoChainAnswers("E");
    }
    UpperFixesNoLower("F");
    DemoChainAnswers("F");
  }

  /** G, H and I reach the fallback. */
  lemma DriverOutputFallback()
    ensures Handle(DemoChain, Upper("G")) == "handlers não encotraram G"
    ensures Handle(DemoChain, Upper("H")) == "handlers não encotraram H"
    ensures Handle(DemoChain, Upper("I")) == "handlers não encotraram I"
  {
    assert Handle(DemoChain, Upper("G")) == "handlers não encotraram G" by {
      UpperFixesNoLower("G");
      DemoChainAnswers("G");
    }
    assert Handle(DemoChain, Upper("H")) == "handlers não encotraram H" by {
      UpperFixesNoLower("H");
      DemoChainAnswers("H");
    }
    UpperFixesNoLower("I");
    DemoChainAnswers("I");
  }

  /** What the script's chain answers, by the letter's owner. */
  lemma DemoChainAnswers(letter: string)
    ensures letter in ["A", "B", "C"] ==> Handle(DemoChain, letter) == AbcPrefix + letter
    ensures letter !in ["A", "B", "C"] && letter in ["D", "E", "F"] ==> Handle(DemoChain, letter) == DefPrefix + letter
    ensures letter !in ["A", "B", "C", "D", "E", "F"] ==> Handle(DemoChain, letter) == FallbackPrefix + letter
  {
  }

  /** The object chain and the function chain send the same letters to the
      fallback, with the same fallback message. */
  lemma AgreesWithFunctionChain(letter: string)
    ensures Handle(DemoChain, letter) == FallbackPrefix + letter
        <==> ChainFunctions.HandlerAbc(letter) == ChainFunctions.HandlerUnsolve(letter)
    ensures FallbackPrefix == ChainFunctions.UnsolvedPrefix
  {
    FallbackIff(DemoChain, letter);
    DemoChainLetters();
    ChainFunctions.HandlerAbcAnswersByOwner(letter);
  }
}
