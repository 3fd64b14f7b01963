/** The download queue as both versions of the tool keep it: a list of links
    that grows at its tail and loses entries by index, and its text form in
    the queue file: one link per line, written with a trailing "\n" after
    every link, read back with each line stripped and blank lines skipped. */
module QueueText {
  import opened PyText

  /** The text `save_queue` writes: every link followed by "\n". */
  function SaveQueue(links: seq<string>): string
  {
    if links == [] then "" else links[0] + "\n" + SaveQueue(links[1..])
  }

  /** The list `load_queue` builds from the file's text. */
  function LoadQueue(text: string): seq<string>
  {
    KeepNonBlank(ReadLines(text))
  }

  /** `[line.strip() for line in lines if line.strip()]` */
  function KeepNonBlank(lines: seq<string>): seq<string>
  {
    if lines == [] then []
    else (if Strip(lines[0]) == "" then [] else [Strip(lines[0])]) + KeepNonBlank(lines[1..])
  }

  /** A link that a save followed by a load gives back unchanged: not empty,
      no whitespace at either end, and no line break inside. */
  predicate Storable(link: string)
  {
    link != [] && Stripped(link) && NoLineBreak(link)
  }

  /** A storable link's saved line loads back as that link. */
  lemma LoadLinkLine(link: string, rest: string)
    requires Storable(link)
    ensures LoadQueue(link + "\n" + rest) == [link] + LoadQueue(rest)
  {
    ReadLinesCons(link, rest);
    StripTrailingBreak(link);
    KeepNonBlankCons(link + "\n", ReadLines(rest));
  }

  lemma KeepNonBlankCons(line: string, lines: seq<string>)
    requires Strip(line) != ""
    ensures KeepNonBlank([line] + lines) == [Strip(line)] + KeepNonBlank(lines)
  {
    assert ([line] + lines)[1..] == lines;
  }

  /** Loading what was saved gives the same list, for storable links. */
  lemma {:induction false} LoadSaveQueue(links: seq<string>)
    requires forall k :: 0 <= k < |links| ==> Storable(links[k])
    ensures LoadQueue(SaveQueue(links)) == links
    decreases |links|
  {
    if links != [] {
      LoadLinkLine(links[0], SaveQueue(links[1..]));
      LoadSaveQueue(links[1..]);
    }
  }

  /** One line as `for line in f` yields it: not empty, and either without a
      line break or with a single "\n" at its end. */
  predicate OneLine(l: string)
  {
    l != [] && (NoLineBreak(l) || (l[|l| - 1] == '\n' && NoLineBreak(l[..|l| - 1])))
  }

  /** The text before a line break, given its "\n", is one line. */
  lemma BrokenLine(w: string)
    requires NoLineBreak(w)
    ensures OneLine(w + "\n")
  {
    assert (w + "\n")[..|w|] == w;
  }

  /** The text up to the first line break of `t`. */
  lemma FirstLine(t: string, k: nat)
    requires k <= |t| && k == RunLen(t, 0, LineChar)
    ensures NoLineBreak(t[..k])
  {
    RunLenSpan(t, 0, LineChar);
    assert forall j :: 0 <= j < k ==> InClass(t[j], LineChar);
  }

  lemma ConsLines(l: string, rest: seq<string>)
    requires OneLine(l)
    requires forall k :: 0 <= k < |rest| ==> OneLine(rest[k])
    ensures forall k :: 0 <= k < |[l] + rest| ==> OneLine(([l] + rest)[k])
  {
  }

  /** Every line `for line in f` yields is one line. */
  lemma {:induction false} ReadLinesShape(t: string)
    ensures forall k :: 0 <= k < |ReadLines(t)| ==> OneLine(ReadLines(t)[k])
    decreases |t|
  {
    if t != [] {
      var k := RunLen(t, 0, LineChar);
      FirstLine(t, k);
      if k == |t| {
        assert t[..k] == t;
      } else {
        var skip := if t[k] == '\r' && k + 1 < |t| && t[k + 1] == '\n' then 2 else 1;
        BrokenLine(t[..k]);
        ReadLinesShape(t[k + skip..]);
        ConsLines(t[..k] + "\n", ReadLines(t[k + skip..]));
      }
    }
  }

  /** A stripped line holds no line break. */
  lemma StripOfLine(l: string)
    requires OneLine(l)
    ensures NoLineBreak(Strip(l)) && Stripped(Strip(l))
  {
    StripSpec(l);
    var a := |l| - |TrimLeft(l)|;
    var r := Strip(l);
    if !NoLineBreak(l) && r != [] {
      assert a + |r| <= |l| - 1;
      assert forall i :: 0 <= i < |r| ==> r[i] == l[..|l| - 1][a + i];
    }
  }

  lemma {:induction false} KeepNonBlankOfLines(lines: seq<string>)
    requires forall k :: 0 <= k < |lines| ==> OneLine(lines[k])
    ensures forall k :: 0 <= k < |KeepNonBlank(lines)| ==> Storable(KeepNonBlank(lines)[k])
    decreases |lines|
  {
    if lines != [] {
      StripOfLine(lines[0]);
      KeepNonBlankOfLines(lines[1..]);
    }
  }

  /** Whatever the file holds, `load_queue` yields only storable links: blank
      lines are gone and every link is stripped. */
  lemma LoadedLinksStorable(text: string)
    ensures forall k :: 0 <= k < |LoadQueue(text)| ==> Storable(LoadQueue(text)[k])
  {
    ReadLinesShape(text);
    KeepNonBlankOfLines(ReadLines(text));
  }

  /** Saving a loaded queue and loading it again changes nothing. */
  lemma LoadSaveLoad(text: string)
    ensures LoadQueue(SaveQueue(LoadQueue(text))) == LoadQueue(text)
  {
    LoadedLinksStorable(text);
    LoadSaveQueue(LoadQueue(text));
  }

  /** `queue.pop(index)` behind the guard `0 <= index < len(queue)`; any
      other index leaves the list as it is. */
  function RemoveAt(links: seq<string>, index: int): seq<string>
  {
    if 0 <= index < |links| then links[..index] + links[index + 1..] else links
  }

  /** An index in range removes exactly that link and keeps the others in
      their order; any other index changes nothing. */
  lemma RemoveAtSpec(links: seq<string>, index: int)
    ensures var r := RemoveAt(links, index);
      if 0 <= index < |links| then
        && |r| == |links| - 1
        && (forall k :: 0 <= k < index ==> r[k] == links[k])
        && (forall k :: index <= k < |r| ==> r[k] == links[k + 1])
        && multiset(r) + multiset{links[index]} == multiset(links)
      else r == links
  {
    if 0 <= index < |links| {
      assert links == links[..index] + [links[index]] + links[index + 1..];
    }
  }

  /** Saving a list with one more link at its tail appends that link's line
      to the text. */
  lemma {:induction false} SaveQueueAppend(links: seq<string>, link: string)
    ensures SaveQueue(links + [link]) == SaveQueue(links) + link + "\n"
    decreases |links|
  {
    if links == [] {
      assert [link][1..] == [];
    } else {
      assert (links + [link])[1..] == links[1..] + [link];
      SaveQueueAppend(links[1..], link);
    }
  }
}
