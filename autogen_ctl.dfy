/** The control script for the patched AutoGen checkout: choosing the name
    of the next patch file from the patch directory's listing, and reading
    the one-letter command. */
module AutogenCtl {
  import opened Outcomes
  import opened Text

  /** `f"{num:03}"`: the number in decimal, zero-padded to three digits. */
  function Prefix(num: nat): (r: string)
    ensures |r| >= 3 && |r| >= |NatToString(num)|
  {
    ZeroPad(NatToString(num), 3)
  }

  /** The prefix ends in the number's decimal digits and has only '0'
      before them. */
  lemma PrefixIsZeroPadded(num: nat)
    ensures var r := Prefix(num);
      && r[|r| - |NatToString(num)|..] == NatToString(num)
      && forall i :: 0 <= i < |r| - |NatToString(num)| ==> r[i] == '0'
  {
    ZeroPadKeepsDigits(NatToString(num), 3);
  }

  /** The patch file for a number, in the patch directory. */
  function PatchPath(dir: string, num: nat): string {
    dir + "/" + Prefix(num) + "-new-patch.diff"
  }

  /** Some file in the listing starts with the number's prefix. */
  predicate Taken(listing: seq<string>, num: nat) {
    exists i :: 0 <= i < |listing| && StartsWith(listing[i], Prefix(num))
  }

  /** The length of the longest name in the listing. */
  function LongestName(listing: seq<string>): (r: nat)
    ensures forall i :: 0 <= i < |listing| ==> |listing[i]| <= r
  {
    if listing == [] then 0
    else
      var rest := LongestName(listing[1..]);
      assert forall i :: 1 <= i < |listing| ==> listing[i] == listing[1..][i - 1];
      if |listing[0]| > rest then |listing[0]| else rest
  }

  /** Numbers with more digits than the longest name are never taken. */
  lemma LargeNumbersAreFree(listing: seq<string>, num: nat)
    requires num >= Pow10(LongestName(listing))
    ensures !Taken(listing, num)
  {
    ManyDigits(num, LongestName(listing));
  }

  /** `next_patch_path()` over the directory's listing: counts up from 0 and
      returns the path for the first number whose prefix starts no file
      name. It only reads the listing. */
  method NextPatchPath(dir: string, listing: seq<string>) returns (path: string)
    ensures exists num: nat :: path == PatchPath(dir, num) && !Taken(listing, num)
                              && forall k :: 0 <= k < num ==> Taken(listing, k)
  {
    ghost var bound := Pow10(LongestName(listing));
    var num: nat := 0;
    while true
      invariant num <= bound
      invariant forall k :: 0 <= k < num ==> Taken(listing, k)
      decreases bound - num
    {
      var prefix := Prefix(num);
      var found := false;
      var i := 0;
      while i < |listing|
        invariant 0 <= i <= |listing|
        invariant !found
        invariant forall j :: 0 <= j < i ==> !StartsWith(listing[j], prefix)
      {
        if StartsWith(listing[i], prefix) {
          found := true;
          break;
        }
        i := i + 1;
      }
      if !found {
        return PatchPath(dir, num);
      }
      if num == bound {
        LargeNumbersAreFree(listing, num);
      }
      num := num + 1;
    }
  }

  /** In an empty directory the first patch is number 000. */
  lemma EmptyDirectoryStartsAtZero(dir: string)
    ensures !Taken([], 0)
    ensures PatchPath(dir, 0) == dir + "/000-new-patch.diff"
  {
    assert NatToString(0) == "0";
    assert ZeroPad("0", 3) == ZeroPad("00", 3) == ZeroPad("000", 3) == "000";
  }

  /** The commands of the script. */
  datatype Command = Setup | CreatePatch | Exit(status: int)

  /** The command for a lower-cased letter: 's' sets up, 'c' or 'p' creates
      a patch, anything else is an invalid choice that exits with status 1. */
  function Dispatch(c: char): Command {
    if c == 's' then Setup
    else if c == 'c' || c == 'p' then CreatePatch
    else Exit(1)
  }

  /** `choice.lstrip()[0].lower()`, dispatched: a blank choice has no first
      character. */
  function ChooseCommand(choice: string): (r: Result<Command>)
    ensures r.Err? <==> IsBlank(choice)
    ensures r.Err? ==> r.error == IndexError
    ensures r.Ok? ==> exists i :: 0 <= i < |choice| && !IsSpace(choice[i]) && (forall k :: 0 <= k < i ==> IsSpace(choice[k]))
                                 && r.value == Dispatch(LowerChar(choice[i]))
  {
    var rest := LStrip(choice);
    if rest == [] then
      Err(IndexError)
    else
      var i := |choice| - |rest|;
      assert choice[i] == rest[0];
      assert !IsBlank(choice);
      Ok(Dispatch(LowerChar(rest[0])))
  }

  /** White space in front of the choice is skipped. */
  lemma {:induction false} LStripPastBlank(pad: string, s: string)
    requires IsBlank(pad)
    ensures LStrip(pad + s) == LStrip(s)
  {
    if pad == [] {
      assert pad + s == s;
    } else {
      var t := pad + s;
      calc {
        LStrip(t);
        { assert t[0] == pad[0]; }
        LStrip(t[1..]);
        { assert t[1..] == pad[1..] + s; }
        LStrip(pad[1..] + s);
        { LStripPastBlank(pad[1..], s); }
        LStrip(s);
      }
    }
  }

  /** Only the first non-blank character counts: white space before the
      choice changes nothing. */
  lemma LeadingSpaceIgnored(pad: string, s: string)
    requires IsBlank(pad)
    ensures ChooseCommand(pad + s) == ChooseCommand(s)
  {
    LStripPastBlank(pad, s);
  }

  /** A choice that starts with a letter is dispatched on that letter,
      whatever follows it: 's' or 'S' sets up, 'c', 'C', 'p' or 'P' creates a
      patch, any other letter exits with status 1. */
  lemma LetterChoice(c: char, rest: string)
    requires 'a' <= c <= 'z' || 'A' <= c <= 'Z'
    ensures ChooseCommand([c] + rest) == Ok(Dispatch(LowerChar(c)))
    ensures ChooseCommand([c] + rest) == Ok(Setup) <==> c in "sS"
    ensures ChooseCommand([c] + rest) == Ok(CreatePatch) <==> c in "cCpP"
    ensures c !in "sScCpP" ==> ChooseCommand([c] + rest) == Ok(Exit(1))
  {
    assert ([c] + rest)[0] == c && !IsSpace(c);
  }

  /** The script's entry: the first argument is the choice when there is
      one, otherwise the answer typed at the prompt. */
  function CommandLine(argv: seq<string>, prompted: string): (r: Result<Command>)
    ensures |argv| > 1 ==> r == ChooseCommand(argv[1])
    ensures |argv| <= 1 ==> r == ChooseCommand(prompted)
  {
    ChooseCommand(if |argv| > 1 then argv[1] else prompted)
  }
}
