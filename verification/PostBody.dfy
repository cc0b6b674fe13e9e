/** The body of a POST's answer as text, and what the client's parser makes of it. */
module PostBody {
  import opened Seqs
  import opened SseParsing
  import opened SseChunks
  import opened SseWire

  /** One response as an event of the body; `json` is its printed form. */
  function EventText(json: string): string {
    "event: message\ndata: " + json + "\n\n"
  }

  function BodyText(jsons: seq<string>): string {
    if jsons == [] then "" else EventText(jsons[0]) + BodyText(jsons[1..])
  }

  function BodyLines(jsons: seq<string>): seq<string> {
    if jsons == [] then [] else ["event: message", "data: " + jsons[0], ""] + BodyLines(jsons[1..])
  }

  function BodyEvents(jsons: seq<string>): seq<Event> {
    seq(|jsons|, k requires 0 <= k < |jsons| => Event("message", jsons[k], ""))
  }

  lemma {:induction false} BodyIsLines(jsons: seq<string>)
    ensures BodyText(jsons) == Unlines(BodyLines(jsons))
  {
    if jsons == [] {
    } else {
      hide Unlines;
      BodyIsLines(jsons[1..]);
      EventIsLines(jsons[0]);
      UnlinesAppend(["event: message", "data: " + jsons[0], ""], BodyLines(jsons[1..]));
    }
  }

  lemma EventIsLines(json: string)
    ensures EventText(json) == Unlines(["event: message", "data: " + json, ""])
  {
    hide Unlines;
    UnlinesThree("event: message", "data: " + json, "");
    assert "event: message\ndata: " == "event: message" + "\n" + "data: ";
  }

  lemma {:induction false} BodyLinesAreClean(jsons: seq<string>)
    requires forall j :: j in jsons ==> OneLineText(j)
    ensures forall l :: l in BodyLines(jsons) ==> OneLineText(l)
  {
    if jsons == [] {
    } else {
      BodyLinesAreClean(jsons[1..]);
      assert jsons[0] in jsons;
    }
  }

  lemma OneBodyEvent(json: string)
    ensures ProcessLines(Between(""), ["event: message", "data: " + json, ""])
            == (Between(""), [Event("message", json, "")])
  {
    hide ProcessLines, ProcessLine;
    var f := Between("").(eventType := "message");
    assert "event" + ": " + "message" == "event: message";
    FieldLine(Between(""), "event", "message");
    DataAndBlank(f, json);
    var tail := ["data: " + json, ""];
    assert ["event: message"] + tail == ["event: message", "data: " + json, ""];
    ProcessQuiet(Between(""), "event: message", f, tail);
  }

  lemma {:induction false} AllBodyEvents(jsons: seq<string>)
    ensures ProcessLines(Between(""), BodyLines(jsons)) == (Between(""), BodyEvents(jsons))
  {
    hide ProcessLine;
    if jsons == [] {
      assert BodyEvents(jsons) == [];
    } else {
      OneBodyEvent(jsons[0]);
      AllBodyEvents(jsons[1..]);
      ProcessAppend(Between(""), ["event: message", "data: " + jsons[0], ""], BodyLines(jsons[1..]));
      assert [Event("message", jsons[0], "")] + BodyEvents(jsons[1..]) == BodyEvents(jsons);
    }
  }

  /** Whatever the chunks the body arrives in, the client's parser yields one event per
      response, in order, and is left as it began. */
  lemma BodyParsesBack(jsons: seq<string>, chunks: seq<string>)
    requires forall j :: j in jsons ==> OneLineText(j)
    requires Concat(chunks) == BodyText(jsons)
    ensures FeedChunks(INITIAL, chunks) == (INITIAL, BodyEvents(jsons))
  {
    hide ProcessLine, ProcessLines, Split;
    BodyIsLines(jsons);
    BodyLinesAreClean(jsons);
    var lines := BodyLines(jsons);
    UnlinesHasNoCr(lines);
    assert "" + BodyText(jsons) == BodyText(jsons);
    SplitOfNothing();
    NoCrUnambiguous("" + Concat(chunks));
    FeedChunksAgree(INITIAL, chunks);
    SplitUnlines(lines, "");
    assert Unlines(lines) + "" == Unlines(lines);
    var none: seq<string> := [];
    assert lines + none == lines;
    AllBodyEvents(jsons);
  }
}
