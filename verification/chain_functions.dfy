/**
 Chain of responsibility written as three plain functions
 (behavioral/chain_of_responsabilities/chain_of_responsability1.py).
 `handler_ABC` answers A, B and C itself, hands everything else to
 `handler_DEF`, which answers D, E and F and hands the rest to
 `handler_unsolve`, the fallback that answers everything.
 */
module ChainFunctions {
  import opened Python

  const AbcLetters: seq<string> := ["A", "B", "C"]
  const DefLetters: seq<string> := ["D", "E", "F"]

  const AbcPrefix := "handler_ABC: conseguiu tartar o valor "
  const DefPrefix := "handler_DEF: conseguiu tartar o valor "
  const UnsolvedPrefix := "handlers não encotraram "

  /** The fallback: never fails and echoes whatever it is given. */
  function HandlerUnsolve(letter: string): (r: string)
    ensures StartsWith(r, UnsolvedPrefix) && r[|UnsolvedPrefix|..] == letter
  {
    UnsolvedPrefix + letter
  }

  function HandlerDef(letter: string): (r: string)
    ensures letter in DefLetters ==> r == DefPrefix + letter
    ensures letter !in DefLetters ==> r == UnsolvedPrefix + letter
    ensures EndsWith(r, letter)
  {
    if letter in DefLetters then DefPrefix + letter else HandlerUnsolve(letter)
  }

  /** The head of the chain, the function the driver calls. */
  function HandlerAbc(letter: string): (r: string)
    ensures letter in AbcLetters ==> r == AbcPrefix + letter
    ensures letter !in AbcLetters && letter in DefLetters ==> r == DefPrefix + letter
    ensures letter !in AbcLetters && letter !in DefLetters ==> r == UnsolvedPrefix + letter
    ensures EndsWith(r, letter)
  {
    if letter in AbcLetters then AbcPrefix + letter else HandlerDef(letter)
  }

  /** Which link of the chain ends up answering. */
  datatype Owner = Abc | Def | Unsolved

  /** Independent classification of a letter by the handler that owns it. */
  function OwnerOf(letter: string): Owner {
    if letter == "A" || letter == "B" || letter == "C" then Abc
    else if letter == "D" || letter == "E" || letter == "F" then Def
    else Unsolved
  }

  function PrefixOf(o: Owner): string {
    match o
    case Abc => AbcPrefix
    case Def => DefPrefix
    case Unsolved => UnsolvedPrefix
  }

  /** The chain answers with the message of the handler that owns the letter,
      and the three messages are told apart by their prefixes. */
  lemma HandlerAbcAnswersByOwner(letter: string)
    ensures HandlerAbc(letter) == PrefixOf(OwnerOf(letter)) + letter
    ensures OwnerOf(letter) == Unsolved <==> HandlerAbc(letter) == HandlerUnsolve(letter)
  {
    var r := HandlerAbc(letter);
    if OwnerOf(letter) != Unsolved {
      assert r[7] != UnsolvedPrefix[7];
    }
  }

  /** Membership is exact: lower-case letters and longer strings are not owned. */
  lemma ExactMembership()
    ensures HandlerAbc("a") == "handlers não encotraram a"
    ensures HandlerAbc("d") == "handlers não encotraram d"
    ensures HandlerAbc("AB") == "handlers não encotraram AB"
    ensures HandlerAbc("") == "handlers não encotraram "
  {
  }

  /** The script's driver, letters A to C: handler_ABC answers. */
  lemma DriverOutputAbc()
    ensures HandlerAbc("A") == "handler_ABC: conseguiu tartar o valor A"
    ensures HandlerAbc("B") == "handler_ABC: conseguiu tartar o valor B"
    ensures HandlerAbc("C") == "handler_ABC: conseguiu tartar o valor C"
  {
  }

  /** The script's driver, letters D to F: handler_DEF answers. */
  lemma DriverOutputDef()
    ensures HandlerAbc("D") == "handler_DEF: conseguiu tartar o valor D"
    ensures HandlerAbc("E") == "handler_DEF: conseguiu tartar o valor E"
    ensures HandlerAbc("F") == "handler_DEF: conseguiu tartar o valor F"
  {
  }

  /** The script's driver, letters G to I: handler_unsolve answers. */
  lemma DriverOutputUnsolved()
    ensures HandlerAbc("G") == "handlers não encotraram G"
    ensures HandlerAbc("H") == "handlers não encotraram H"
    ensures HandlerAbc("I") == "handlers não encotraram I"
  {
  }
}
