/** What the checkpoint and screenshot policies see of an observation: its candidates by
    their signatures, and the hash of the signatures joined by newlines. */
module Fingerprints {
  import opened Basics
  import opened CanonicalJson
  import opened TextLines

  /** A candidate element; an absent text is empty. */
  datatype Candidate = Candidate(
    index: nat, tag: string, role: string, name: string, href: string, inputType: string,
    editable: bool, password: bool)
  {
    /** candidate_signature */
    function Signature(): (text: string)
      ensures text != []
    {
      Digits(index) + "|" + (tag + "|" + (role + "|" + (name + "|" + (href + "|" + (inputType + "|" + Flags())))))
    }

    function Flags(): string {
      [if editable then '1' else '0', '|', if password then '1' else '0']
    }

    /** No text of the candidate holds a newline. */
    predicate OneLine() {
      '\n' !in tag && '\n' !in role && '\n' !in name && '\n' !in href && '\n' !in inputType
    }
  }

  /** The texts a signature shows, in order. */
  function Shown(c: Candidate): seq<string> {
    [Digits(c.index), c.tag, c.role, c.name, c.href, c.inputType,
     if c.editable then "1" else "0", if c.password then "1" else "0"]
  }

  predicate NoBar(c: Candidate) {
    '|' !in c.tag && '|' !in c.role && '|' !in c.name && '|' !in c.href && '|' !in c.inputType
  }

  lemma SignatureSplits(c: Candidate)
    requires NoBar(c)
    ensures Split(c.Signature(), '|') == Shown(c)
  {
    hide Split, Digits;
    DigitsComeBack(c.index);
    var six := c.Flags();
    var five := c.inputType + "|" + six;
    var four := c.href + "|" + five;
    var three := c.name + "|" + four;
    var two := c.role + "|" + three;
    var one := c.tag + "|" + two;
    var flag := if c.editable then "1" else "0";
    var last := if c.password then "1" else "0";
    assert six == flag + "|" + last;
    SplitPlain(flag, '|');
    SplitPlain(last, '|');
    SplitConcat(flag, last, '|');
    SplitPlain(c.inputType, '|');
    SplitConcat(c.inputType, six, '|');
    SplitPlain(c.href, '|');
    SplitConcat(c.href, five, '|');
    SplitPlain(c.name, '|');
    SplitConcat(c.name, four, '|');
    SplitPlain(c.role, '|');
    SplitConcat(c.role, three, '|');
    SplitPlain(c.tag, '|');
    SplitConcat(c.tag, two, '|');
    SplitPlain(Digits(c.index), '|');
    SplitConcat(Digits(c.index), one, '|');
  }

  /** A signature tells candidates apart by every one of their fields, unless a text holds
      the bar that separates them. */
  lemma SignaturesAgreeIff(a: Candidate, b: Candidate)
    requires NoBar(a) && NoBar(b)
    ensures a.Signature() == b.Signature() <==> a == b
  {
    hide Split, Digits, Candidate.Signature;
    SignatureSplits(a);
    SignatureSplits(b);
    DigitsComeBack(a.index);
    DigitsComeBack(b.index);
    if a.Signature() == b.Signature() {
      assert Shown(a) == Shown(b);
      assert forall i :: 0 <= i < 8 ==> Shown(a)[i] == Shown(b)[i];
      assert Shown(a)[0] == Digits(a.index) && Shown(b)[0] == Digits(b.index);
    }
  }

  datatype Observation = Observation(url: string, title: string, candidates: seq<Candidate>, errorCount: nat)
  {
    function Signatures(): seq<string> {
      seq(|candidates|, i requires 0 <= i < |candidates| => candidates[i].Signature())
    }

    /** The text that compute_dom_hash hashes. */
    function DomText(): string {
      Join(Signatures(), '\n')
    }

    /** The lines of that text, as the signatures give them. */
    function DomLines(): seq<string> {
      Pieces(Signatures(), '\n')
    }

    predicate OneLine() {
      forall i :: 0 <= i < |candidates| ==> candidates[i].OneLine()
    }
  }

  datatype Fingerprint = Fingerprint(
    url: string, title: string, domHash: string, signatures: set<string>, errorCount: nat)

  type TextHash = string -> string

  function FingerprintOf(hash: TextHash, o: Observation): Fingerprint {
    Fingerprint(o.url, o.title, hash(o.DomText()), (set s | s in o.Signatures()), o.errorCount)
  }

  lemma SignatureIsOneLine(c: Candidate)
    ensures '\n' !in c.Signature() <==> c.OneLine()
  {
    DigitsComeBack(c.index);
    assert '\n' !in Digits(c.index);
  }

  /** The hashed texts agree if and only if the signatures give the same lines. */
  lemma DomTextsAgreeIff(a: Observation, b: Observation)
    ensures a.DomText() == b.DomText() <==> a.DomLines() == b.DomLines()
  {
    JoinsAgreeIff(a.Signatures(), b.Signatures(), '\n');
  }

  lemma OneLineKeepsSignatures(o: Observation)
    requires o.OneLine()
    ensures o.DomLines() == o.Signatures()
  {
    forall i | 0 <= i < |o.candidates| ensures '\n' !in o.Signatures()[i] {
      SignatureIsOneLine(o.candidates[i]);
    }
    PlainPieces(o.Signatures(), '\n');
  }

  /** Two links named X and Y ... */
  const TWO_LINKS := [
    Candidate(0, "a", "", "X", "", "", false, false), Candidate(1, "a", "", "Y", "", "", false, false)]

  /** ... and one whose name spells out the rest of both signatures. */
  const ONE_LINK := [Candidate(0, "a", "", "X|||0|0\n1|a||Y", "", "", false, false)]

  lemma TwoLinkSignatures()
    ensures TWO_LINKS[0].Signature() == "0|a||X|||0|0" && TWO_LINKS[1].Signature() == "1|a||Y|||0|0"
  {
    assert Digits(0) == "0" && Digits(1) == "1";
  }

  lemma OneLinkSignature()
    ensures ONE_LINK[0].Signature() == "0|a||X|||0|0" + ['\n'] + "1|a||Y|||0|0"
  {
    assert Digits(0) == "0";
  }

  /** The two pages have the same hashed text and not one signature in common. */
  lemma LinksReadAlike(url: string, title: string, errorCount: nat)
    ensures var a, b := Observation(url, title, TWO_LINKS, errorCount), Observation(url, title, ONE_LINK, errorCount);
            && a.DomText() == b.DomText()
            && a.Signatures() != [] && b.Signatures() != []
            && forall s :: s in a.Signatures() ==> s !in b.Signatures()
  {
    hide Candidate.Signature;
    TwoLinkSignatures();
    OneLinkSignature();
    var a, b := Observation(url, title, TWO_LINKS, errorCount), Observation(url, title, ONE_LINK, errorCount);
    var x, y := "0|a||X|||0|0", "1|a||Y|||0|0";
    assert a.Signatures() == [x, y] && [x, y][1..] == [y];
    assert b.Signatures() == [x + ['\n'] + y];
    assert Join([x, y], '\n') == x + ['\n'] + Join([y], '\n');
    assert |x + ['\n'] + y| > |x| && |x + ['\n'] + y| > |y|;
  }
}
