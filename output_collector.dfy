/** `PrintOutputCollector`: a stand-in for standard output that gathers the printed lines
    of one resume under a key and files them, joined by newlines, in a dictionary. The
    echo of every write to the real standard output is not modelled. */
module OutputCollection {
  import opened Wrappers
  import opened Text

  /** The separator the buffered lines are joined with. */
  const Newline: char := '\n'

  /** Python truthiness of the active key: there is one and it is not empty. */
  predicate Collects(key: Option<string>) {
    key.Some? && key.value != ""
  }

  /** The dictionary after a stop: the joined buffer is filed under the active key when
      there is one and something was buffered; otherwise the dictionary is unchanged. */
  function Committed(outputs: map<string, string>, key: Option<string>, buffer: seq<string>): (r: map<string, string>)
    ensures Collects(key) && buffer != [] ==> key.value in r && r[key.value] == Join(buffer, Newline)
    ensures forall k :: k in outputs && !(Collects(key) && buffer != [] && k == key.value) ==> k in r && r[k] == outputs[k]
    ensures forall k :: k in r ==> k in outputs || (Collects(key) && buffer != [] && k == key.value)
  {
    if Collects(key) && buffer != [] then outputs[key.value := Join(buffer, Newline)] else outputs
  }

  /** A filed output gives back the buffered lines when none of them spans several lines. */
  lemma CommittedLines(outputs: map<string, string>, key: Option<string>, buffer: seq<string>)
    requires Collects(key) && buffer != []
    requires forall k :: 0 <= k < |buffer| ==> Newline !in buffer[k]
    ensures Split(Committed(outputs, key, buffer)[key.value], Newline) == buffer
  {
    SplitJoin(buffer, Newline);
  }

  /** What a write appends to the buffer: the text without trailing white space, when the
      text is not blank and a key is active; nothing otherwise. */
  function Appended(key: Option<string>, text: string): (r: seq<string>)
    ensures |r| <= 1
    ensures r != [] <==> Collects(key) && !AllSpace(text)
    ensures r != [] ==> r[0] == RStrip(text) && !AllSpace(r[0]) && r[0] <= text && AllSpace(text[|r[0]|..])
  {
    StripEmptyIffBlank(text);
    if Strip(text) != [] && Collects(key) then
      RStripKeepsNonBlank(text);
      [RStrip(text)]
    else []
  }

  class PrintOutputCollector {
    /** The filed outputs (`output_dict`). */
    var outputDict: map<string, string>
    /** The key collected under (`current_key`); `None` between collections. */
    var currentKey: Option<string>
    /** The lines buffered for the active key (`current_output`). */
    var currentOutput: seq<string>

    /** Nothing is buffered unless a key is active, no buffered line is blank, and every
        filed output has a non-empty key and a non-empty text. */
    predicate Valid()
      reads this
    {
      && (!Collects(currentKey) ==> currentOutput == [])
      && (forall k :: 0 <= k < |currentOutput| ==> !AllSpace(currentOutput[k]))
      && (forall k :: k in outputDict ==> k != "" && outputDict[k] != "")
    }

    constructor ()
      ensures Valid()
      ensures outputDict == map[] && currentKey == None && currentOutput == []
    {
      outputDict := map[];
      currentKey := None;
      currentOutput := [];
    }

    /** `write(text)`. */
    method Write(text: string)
      requires Valid()
      modifies this
      ensures Valid()
      ensures currentOutput == old(currentOutput) + Appended(old(currentKey), text)
      ensures currentKey == old(currentKey) && outputDict == old(outputDict)
    {
      StripEmptyIffBlank(text);
      if Strip(text) != [] {
        if Collects(currentKey) {
          RStripKeepsNonBlank(text);
          currentOutput := currentOutput + [RStrip(text)];
        }
      }
    }

    /** `start_collecting(key)`: a fresh buffer under `key`; filed outputs are untouched. */
    method StartCollecting(key: string)
      requires Valid()
      modifies this
      ensures Valid()
      ensures currentKey == Some(key) && currentOutput == [] && outputDict == old(outputDict)
    {
      currentKey := Some(key);
      currentOutput := [];
    }

    /** `stop_collecting()`: files the buffer under the active key, then ends the collection. */
    method StopCollecting()
      requires Valid()
      modifies this
      ensures Valid()
      ensures outputDict == Committed(old(outputDict), old(currentKey), old(currentOutput))
      ensures currentKey == None && currentOutput == []
    {
      if Collects(currentKey) && currentOutput != [] {
        JoinNonEmpty(currentOutput, Newline);
        outputDict := outputDict[currentKey.value := Join(currentOutput, Newline)];
      }
      currentKey := None;
      currentOutput := [];
    }

    /** `get_all_outputs()`: a copy of the filed outputs. */
    method GetAllOutputs() returns (r: map<string, string>)
      requires Valid()
      ensures r == outputDict
      ensures forall k :: k in r ==> k != "" && r[k] != ""
    {
      r := outputDict;
    }

    /** `clear_outputs()`: forgets every filed output; a collection in progress goes on. */
    method ClearOutputs()
      requires Valid()
      modifies this
      ensures Valid()
      ensures outputDict == map[]
      ensures currentKey == old(currentKey) && currentOutput == old(currentOutput)
    {
      outputDict := map[];
    }
  }
}
