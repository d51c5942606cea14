/** The command-line report of wav_transcribe.py: three recognisers each
    write a labelled text into their own slot of a shared three-element
    list, and the filled slots are printed between two separator lines.
    The recognisers run on threads in wav_transcribe.py; here their outcomes are
    given and the formatters run one after the other. */
module Report {

  datatype Provider = Google | Bing | Ibm

  /** What one recogniser call did. */
  datatype Recognition =
    | Heard(text: string)
    | NotUnderstood               // sr.UnknownValueError
    | RequestFailed(error: string) // sr.RequestError, by its str() text
    | Crashed                     // any other exception: the thread ends without writing

  /** The slot each provider's formatter writes. */
  function SlotIndex(p: Provider): (i: nat)
    ensures i < 3
  {
    match p
    case Google => 0
    case Bing => 1
    case Ibm => 2
  }

  function Label(p: Provider): string
  {
    match p
    case Google => "Google:\n"
    case Bing => "Bing:\n"
    case Ibm => "Watson:\n"
  }

  /** The service name the provider's messages use. */
  function ServiceName(p: Provider): string
  {
    match p
    case Google => "Google Speech Recognition"
    case Bing => "Microsoft Bing Voice Recognition"
    case Ibm => "IBM Speech to Text"
  }

  /** What follows the label: the recognised text or the provider's message. */
  function Body(p: Provider, o: Recognition): (r: string)
    requires !o.Crashed?
    ensures o.Heard? ==> r == o.text
    ensures o.NotUnderstood? ==> r == ServiceName(p) + " could not understand audio"
    ensures o.RequestFailed? ==> r == "Could not request results from " + ServiceName(p) + " service; " + o.error
  {
    match o
    case Heard(t) => t
    case NotUnderstood => ServiceName(p) + " could not understand audio"
    case RequestFailed(e) => "Could not request results from " + ServiceName(p) + " service; " + e
  }

  /** The text a formatter that ran to completion stores. */
  function SlotText(p: Provider, o: Recognition): string
    requires !o.Crashed?
  {
    Label(p) + Body(p, o)
  }

  /** A stored text is the provider's label on a line of its own, then
      the body. */
  lemma SlotTextLayout(p: Provider, o: Recognition)
    requires !o.Crashed?
    ensures var r := SlotText(p, o);
            && |Label(p)| <= |r| && r[..|Label(p)|] == Label(p) && r[|Label(p)|..] == Body(p, o)
            && r[|Label(p)| - 1] == '\n'
  {
  }

  /** A stored text is never empty and tells which provider wrote it and
      what it says: no two formatters can produce the same text. */
  lemma SlotTextIdentifies(p: Provider, o: Recognition, p': Provider, o': Recognition)
    requires !o.Crashed? && !o'.Crashed?
    requires SlotText(p, o) == SlotText(p', o')
    ensures SlotText(p, o) != ""
    ensures p == p' && Body(p, o) == Body(p', o')
  {
    var s := SlotText(p, o);
    assert s[0] == Label(p)[0] && s[0] == Label(p')[0];
    assert s[|Label(p)|..] == Body(p, o);
  }

  /** The slot p's formatter leaves: its text, or "" when its thread died. */
  function Slot(p: Provider, o: Recognition): string
  {
    if o.Crashed? then "" else SlotText(p, o)
  }

  lemma SlotEmptyOnlyIfCrashed(p: Provider, o: Recognition)
    ensures Slot(p, o) == "" <==> o.Crashed?
  {
  }

  /** The slots after p's formatter ran on them. */
  function Written(slots: seq<string>, p: Provider, o: Recognition): (r: seq<string>)
    requires |slots| == 3
    ensures |r| == 3
    ensures r[SlotIndex(p)] == (if o.Crashed? then slots[SlotIndex(p)] else SlotText(p, o))
    ensures forall i :: 0 <= i < 3 && i != SlotIndex(p) ==> r[i] == slots[i]
  {
    if o.Crashed? then slots else slots[SlotIndex(p) := SlotText(p, o)]
  }

  /** Formatters of different providers write different slots, so the
      order in which the threads finish does not change the slots. */
  lemma WritesCommute(slots: seq<string>, p: Provider, o: Recognition, p': Provider, o': Recognition)
    requires |slots| == 3 && p != p'
    ensures Written(Written(slots, p, o), p', o') == Written(Written(slots, p', o'), p, o)
  {
  }

  /** get_google, get_bing and get_ibm: build the labelled text and store it
      in the provider's own slot; a thread that dies writes nothing. */
  method Recognize(q: array<string>, p: Provider, o: Recognition)
    requires q.Length == 3
    modifies q
    ensures q[..] == Written(old(q[..]), p, o)
  {
    if o.Crashed? {
      return;
    }
    var str := Label(p);
    str := str + Body(p, o);
    q[SlotIndex(p)] := str;
  }

  const Separator := "-------------------------------------------------------------------"

  /** The three lines a filled slot contributes, none for an empty one. */
  function Section(slot: string): seq<string>
  {
    if slot != "" then ["", slot, ""] else []
  }

  function Sections(slots: seq<string>): seq<string>
  {
    if slots == [] then [] else Section(slots[0]) + Sections(slots[1..])
  }

  /** The lines printed for the slots, between the two separators. */
  function ReportLines(slots: seq<string>): seq<string>
  {
    [Separator] + Sections(slots) + [Separator]
  }

  /** The non-empty strings of s, in order. */
  function Filled(s: seq<string>): seq<string>
  {
    if s == [] then []
    else if s[0] == "" then Filled(s[1..])
    else [s[0]] + Filled(s[1..])
  }

  lemma {:induction false} FilledAppend(a: seq<string>, b: seq<string>)
    ensures Filled(a + b) == Filled(a) + Filled(b)
  {
    if a == [] {
      assert a + b == b;
    } else {
      FilledAppend(a[1..], b);
      assert (a + b)[0] == a[0];
      assert (a + b)[1..] == a[1..] + b;
    }
  }

  /** Only the filled slots appear, in slot order, each as three lines
      with the slot between two empty ones. */
  lemma {:induction false} SectionsKeepFilledSlots(slots: seq<string>)
    ensures Filled(Sections(slots)) == Filled(slots)
    ensures |Sections(slots)| == 3 * |Filled(slots)|
  {
    if slots != [] {
      SectionsKeepFilledSlots(slots[1..]);
      FilledAppend(Section(slots[0]), Sections(slots[1..]));
      if slots[0] != "" {
        var section := ["", slots[0], ""];
        assert section[1..][1..][1..] == [];
        assert Filled(section[1..][1..]) == [];
        assert Filled(section) == [slots[0]];
      }
    }
  }

  /** "sep".join(lines). */
  function Join(lines: seq<string>, sep: string): string
  {
    if lines == [] then ""
    else if |lines| == 1 then lines[0]
    else lines[0] + sep + Join(lines[1..], sep)
  }

  /** The join is empty for no lines; otherwise it starts with the first
      line and ends with the last, and between two lines stands sep. */
  lemma {:induction false} JoinEnds(lines: seq<string>, sep: string)
    ensures lines == [] ==> Join(lines, sep) == ""
    ensures lines != [] ==> var r := Join(lines, sep);
              |lines[0]| <= |r| && r[..|lines[0]|] == lines[0]
    ensures lines != [] ==> var r, last := Join(lines, sep), lines[|lines| - 1];
              |last| <= |r| && r[|r| - |last|..] == last
    ensures |lines| >= 2 ==> var r := Join(lines, sep);
              |lines[0]| + |sep| <= |r| && r[|lines[0]|..|lines[0]| + |sep|] == sep
  {
    if |lines| >= 2 {
      JoinEnds(lines[1..], sep);
      var rest := Join(lines[1..], sep);
      assert Join(lines, sep) == lines[0] + sep + rest;
      assert lines[1..][|lines[1..]| - 1] == lines[|lines| - 1];
    }
  }

  lemma {:induction false} JoinAppend(a: seq<string>, b: seq<string>, sep: string)
    requires a != [] && b != []
    ensures Join(a + b, sep) == Join(a, sep) + sep + Join(b, sep)
  {
    if |a| == 1 {
      assert (a + b)[1..] == b;
    } else {
      JoinAppend(a[1..], b, sep);
      assert (a + b)[1..] == a[1..] + b;
    }
  }

  /** What print writes for the slots: the lines joined by "\r\n" and
      print's own "\n" after them. */
  function Printed(slots: seq<string>): string
  {
    Join(ReportLines(slots), "\r\n") + "\n"
  }

  /** The joined lines open and close with the separator line. */
  lemma JoinedFramed(slots: seq<string>)
    ensures var out := Join(ReportLines(slots), "\r\n");
            && |out| >= 2 * |Separator| + 2
            && out[..|Separator| + 2] == Separator + "\r\n"
            && out[|out| - |Separator| - 2..] == "\r\n" + Separator
  {
    var middle := Sections(slots);
    var lines := ReportLines(slots);
    var out := Join(lines, "\r\n");
    if middle == [] {
      assert lines == [Separator, Separator];
      assert out == Separator + "\r\n" + Separator;
    } else {
      JoinAppend([Separator], middle + [Separator], "\r\n");
      JoinAppend(middle, [Separator], "\r\n");
      assert lines == [Separator] + (middle + [Separator]);
      assert out == Separator + "\r\n" + (Join(middle, "\r\n") + "\r\n" + Separator);
    }
  }

  /** The printed report opens and closes with the separator line, and
      ends with the newline print adds. */
  lemma ReportFramed(slots: seq<string>)
    ensures var out := Printed(slots);
            && |out| >= 2 * |Separator| + 3
            && out[..|Separator| + 2] == Separator + "\r\n"
            && out[|out| - |Separator| - 3..] == "\r\n" + Separator + "\n"
  {
    var joined := Join(ReportLines(slots), "\r\n");
    JoinedFramed(slots);
    var n := |joined| - |Separator| - 2;
    assert (joined + "\n")[..|Separator| + 2] == joined[..|Separator| + 2];
    assert (joined + "\n")[n..] == joined[n..] + "\n";
  }

  /** The script's main part: fill the three slots, then print the report. */
  method RunReport(google: Recognition, bing: Recognition, ibm: Recognition) returns (out: string)
    ensures out == Printed([Slot(Google, google), Slot(Bing, bing), Slot(Ibm, ibm)])
  {
    var results := new string[3](_ => "");
    Recognize(results, Google, google);
    Recognize(results, Bing, bing);
    Recognize(results, Ibm, ibm);
    ghost var slots := [Slot(Google, google), Slot(Bing, bing), Slot(Ibm, ibm)];
    assert results[..] == slots;
    var txt: seq<string> := [];
    txt := txt + [Separator];
    if results[0] != "" {
      txt := txt + ["", results[0], ""];
    }
    assert txt == [Separator] + Section(slots[0]);
    if results[1] != "" {
      txt := txt + ["", results[1], ""];
    }
    assert txt == [Separator] + Section(slots[0]) + Section(slots[1]);
    if results[2] != "" {
      txt := txt + ["", results[2], ""];
    }
    assert txt == [Separator] + Section(slots[0]) + Section(slots[1]) + Section(slots[2]);
    txt := txt + [Separator];
    ReportLinesOfThree(slots);
    assert txt == ReportLines(slots);
    out := Join(txt, "\r\n") + "\n";
  }

  lemma ReportLinesOfThree(slots: seq<string>)
    requires |slots| == 3
    ensures ReportLines(slots) == [Separator] + Section(slots[0]) + Section(slots[1]) + Section(slots[2]) + [Separator]
  {
    assert Sections(slots[2..]) == Section(slots[2]) by {
      assert slots[2..][1..] == [];
    }
    assert slots[1..][1..] == slots[2..];
    assert Sections(slots[1..]) == Section(slots[1]) + Section(slots[2]);
    assert Sections(slots) == Section(slots[0]) + (Section(slots[1]) + Section(slots[2]));
  }
}
