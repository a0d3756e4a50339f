/**
 * The read-aloud hook (hooks/useTextReader.ts): the playing / paused flags,
 * the index of the word being spoken, the choice of voice, and the calls it
 * makes on the browser's speech synthesiser, which are recorded rather than
 * performed.
 */
module TextReader {
  import opened Js

  // ---------------------------------------------------------------------------
  // Words and the `split(/\s+/)` the boundary handler uses
  // ---------------------------------------------------------------------------

  /** `s.split(/\s+/)`: the pieces between maximal runs of whitespace. A
      leading or trailing run yields an empty first or last piece. */
  function SplitOnSpaceRuns(s: string): (r: seq<string>)
    ensures |r| >= 1
    ensures forall k | 0 <= k < |r| :: forall i | 0 <= i < |r[k]| :: !IsSpace(r[k][i])
    ensures forall k | 0 < k < |r| - 1 :: r[k] != []
    decreases |s|
  {
    if s == [] then [""]
    else
      var p := SplitOnSpaceRuns(s[..|s| - 1]);
      var c := s[|s| - 1];
      if IsSpace(c) then
        if |s| >= 2 && IsSpace(s[|s| - 2]) then p else p + [""]
      else
        p[..|p| - 1] + [p[|p| - 1] + [c]]
  }

  /** The number of maximal runs of whitespace in `s`. */
  function SpaceRuns(s: string): nat
    decreases |s|
  {
    if s == [] then 0
    else SpaceRuns(s[..|s| - 1]) + if IsSpace(s[|s| - 1]) && (|s| == 1 || !IsSpace(s[|s| - 2])) then 1 else 0
  }

  /** The number of words of `s`: the positions holding a non-space character
      that starts `s` or follows a space. */
  function Words(s: string): nat
    decreases |s|
  {
    if s == [] then 0
    else Words(s[..|s| - 1]) + if !IsSpace(s[|s| - 1]) && (|s| == 1 || IsSpace(s[|s| - 2])) then 1 else 0
  }

  /** A position at which a word begins. */
  predicate WordStartsAt(text: string, k: nat) {
    k < |text| && !IsSpace(text[k]) && (k == 0 || IsSpace(text[k - 1]))
  }

  /** `text.substring(0, n)`: JavaScript clamps the end to the length. */
  function Prefix(text: string, n: nat): (r: string)
    ensures |r| <= |text| && r <= text
  {
    if n <= |text| then text[..n] else text
  }

  /** The `onboundary` computation: 0 when the text before `charIndex` is blank,
      otherwise one less than the number of pieces of the trimmed text up to
      and including `charIndex`. */
  function WordIndex(text: string, charIndex: nat): int {
    if Trim(Prefix(text, charIndex)) == [] then 0
    else |SplitOnSpaceRuns(Trim(Prefix(text, charIndex + 1)))| - 1
  }

  lemma {:induction false} SplitLength(s: string)
    ensures |SplitOnSpaceRuns(s)| == 1 + SpaceRuns(s)
    decreases |s|
  {
    if s != [] {
      SplitLength(s[..|s| - 1]);
    }
  }

  lemma {:induction false} BlankHasNoWords(s: string)
    requires IsBlank(s)
    ensures Words(s) == 0
    decreases |s|
  {
    if s != [] {
      BlankHasNoWords(s[..|s| - 1]);
    }
  }

  /** Whitespace before the first word adds no word. */
  lemma {:induction false} LeadingBlankWords(b: string, r: string)
    requires IsBlank(b)
    requires r == [] || !IsSpace(r[0])
    ensures Words(b + r) == Words(r)
    decreases |r|
  {
    if r == [] {
      assert b + r == b;
      BlankHasNoWords(b);
    } else {
      var init := r[..|r| - 1];
      assert (b + r)[..|b + r| - 1] == b + init;
      LeadingBlankWords(b, init);
      if |r| == 1 {
        assert init == [];
        assert b + init == b;
        BlankHasNoWords(b);
      }
    }
  }

  /** In a text that starts and ends with a word, words and whitespace runs
      alternate, so there is one word more than there are runs. */
  lemma {:induction false} WordsAlternate(s: string)
    requires s != [] && !IsSpace(s[0])
    ensures Words(s) == SpaceRuns(s) + if IsSpace(s[|s| - 1]) then 0 else 1
    decreases |s|
  {
    if |s| > 1 {
      var init := s[..|s| - 1];
      assert init[0] == s[0];
      WordsAlternate(init);
    }
  }

  lemma TrimEndOfWordEnd(s: string)
    requires s != [] && !IsSpace(s[|s| - 1])
    ensures TrimEnd(s) == s
  {
  }

  /** A text ending in a word splits, once trimmed, into as many pieces as it
      has words. */
  lemma PiecesOfTrimmed(u: string)
    requires u != [] && !IsSpace(u[|u| - 1])
    ensures |SplitOnSpaceRuns(Trim(u))| == Words(u)
  {
    var ts := TrimStart(u);
    assert ts != [] && ts[|ts| - 1] == u[|u| - 1];
    TrimEndOfWordEnd(ts);
    var m := |u| - |ts|;
    assert u == u[..m] + ts;
    LeadingBlankWords(u[..m], ts);
    WordsAlternate(ts);
    SplitLength(ts);
  }

  /** A word starting at `k` is one more word once its first character is
      taken. */
  lemma WordAt(text: string, k: nat)
    requires WordStartsAt(text, k)
    ensures Words(text[..k + 1]) == Words(text[..k]) + 1
  {
    var u := text[..k + 1];
    assert u[..|u| - 1] == text[..k];
    assert u[|u| - 1] == text[k] && (|u| == 1 || u[|u| - 2] == text[k - 1]);
  }

  /** At the start of a word, the index is the number of words before it:
      the word's own position, counting from 0. */
  lemma WordIndexAtWordStart(text: string, k: nat)
    requires WordStartsAt(text, k)
    ensures WordIndex(text, k) == Words(text[..k])
  {
    assert Prefix(text, k) == text[..k] && Prefix(text, k + 1) == text[..k + 1];
    if Trim(text[..k]) == [] {
      assert IsBlank(text[..k]);
      BlankHasNoWords(text[..k]);
    } else {
      PiecesOfTrimmed(text[..k + 1]);
      WordAt(text, k);
    }
  }

  /** Before the first word the index is 0, whatever follows. */
  lemma WordIndexAtStart(text: string, charIndex: nat)
    requires IsBlank(Prefix(text, charIndex))
    ensures WordIndex(text, charIndex) == 0
  {
  }

  // ---------------------------------------------------------------------------
  // Voice preference
  // ---------------------------------------------------------------------------

  datatype Voice = Voice(name: string, lang: string)

  /** One of the three named voices, or any English Google voice. */
  predicate Preferred(v: Voice) {
    || v.name == "Google US English"
    || v.name == "Microsoft Zira Desktop - English (United States)"
    || v.name == "Samantha"
    || (Includes(v.name, "Google") && StartsWith(v.lang, "en"))
  }

  /** `voices.find(...)`: the first preferred voice, `None` when there is none
      (the utterance then keeps the default voice). */
  function PreferredVoice(voices: seq<Voice>): (r: Option<Voice>)
    ensures r.None? <==> forall i | 0 <= i < |voices| :: !Preferred(voices[i])
    ensures r.Some? ==> exists k | 0 <= k < |voices| ::
      (voices[k] == r.value && Preferred(r.value) && forall j | 0 <= j < k :: !Preferred(voices[j]))
  {
    if voices == [] then None
    else if Preferred(voices[0]) then Some(voices[0])
    else
      var r := PreferredVoice(voices[1..]);
      if r.Some? then
        var k :| 0 <= k < |voices[1..]| && voices[1..][k] == r.value && Preferred(r.value)
          && forall j | 0 <= j < k :: !Preferred(voices[1..][j]);
        assert voices[k + 1] == r.value && forall j | 0 <= j < k + 1 :: !Preferred(voices[j]);
        r
      else r
  }

  // ---------------------------------------------------------------------------
  // The hook's state
  // ---------------------------------------------------------------------------

  /** The utterance handed to the synthesiser: rate, pitch and volume are 1. */
  datatype Utterance = Utterance(text: string, voice: Option<Voice>, rate: real, pitch: real, volume: real)

  /** A call made on `window.speechSynthesis`. */
  datatype SynthCall = CancelSpeech | SpeakUtterance(utterance: Utterance) | PauseSpeech | ResumeSpeech

  class Reader {
    var isPlaying: bool
    var isPaused: bool
    var currentWordIndex: int
    var supported: bool
    /** `utteranceRef.current` */
    var utterance: Option<Utterance>
    /** The calls made on the synthesiser so far. */
    var synth: seq<SynthCall>

    /** The index is -1 (no word) or a word position; the synthesiser is only
        ever used once support has been detected. */
    predicate Valid()
      reads this
    {
      currentWordIndex >= -1 && (!supported ==> synth == [])
    }

    constructor ()
      ensures Valid()
      ensures !isPlaying && !isPaused && currentWordIndex == -1 && !supported
      ensures utterance == None && synth == []
    {
      isPlaying, isPaused, currentWordIndex, supported := false, false, -1, false;
      utterance, synth := None, [];
    }

    /** The mount effect: support is detected once, from the environment. */
    method DetectSupport(hasSpeechSynthesis: bool)
      requires Valid()
      modifies this
      ensures Valid()
      ensures supported == (old(supported) || hasSpeechSynthesis)
      ensures isPlaying == old(isPlaying) && isPaused == old(isPaused)
      ensures currentWordIndex == old(currentWordIndex)
      ensures utterance == old(utterance) && synth == old(synth)
    {
      if hasSpeechSynthesis {
        supported := true;
      }
    }

    method Cancel()
      requires Valid()
      modifies this
      ensures Valid()
      ensures supported == old(supported) && utterance == old(utterance)
      ensures !old(supported) ==>
        isPlaying == old(isPlaying) && isPaused == old(isPaused)
        && currentWordIndex == old(currentWordIndex) && synth == old(synth)
      ensures old(supported) ==>
        !isPlaying && !isPaused && currentWordIndex == -1 && synth == old(synth) + [CancelSpeech]
    {
      if !supported {
        return;
      }
      synth := synth + [CancelSpeech];
      isPlaying, isPaused, currentWordIndex := false, false, -1;
    }

    /** Stops whatever is being read, then hands the synthesiser a new
        utterance of `text` in the preferred voice. */
    method Speak(text: string, voices: seq<Voice>)
      requires Valid()
      modifies this
      ensures Valid()
      ensures supported == old(supported)
      ensures !old(supported) ==>
        isPlaying == old(isPlaying) && isPaused == old(isPaused)
        && currentWordIndex == old(currentWordIndex)
        && utterance == old(utterance) && synth == old(synth)
      ensures old(supported) ==>
        var u := Utterance(text, PreferredVoice(voices), 1.0, 1.0, 1.0);
        && !isPlaying && !isPaused && currentWordIndex == -1
        && utterance == Some(u)
        && synth == old(synth) + [CancelSpeech, SpeakUtterance(u)]
    {
      if !supported {
        return;
      }
      Cancel();
      var u := Utterance(text, PreferredVoice(voices), 1.0, 1.0, 1.0);
      utterance := Some(u);
      synth := synth + [SpeakUtterance(u)];
    }

    method Pause()
      requires Valid()
      modifies this
      ensures Valid()
      ensures isPlaying == old(isPlaying) && isPaused == old(isPaused)
      ensures currentWordIndex == old(currentWordIndex)
      ensures supported == old(supported) && utterance == old(utterance)
      ensures synth == if old(supported) then old(synth) + [PauseSpeech] else old(synth)
    {
      if !supported {
        return;
      }
      synth := synth + [PauseSpeech];
    }

    method Resume()
      requires Valid()
      modifies this
      ensures Valid()
      ensures isPlaying == old(isPlaying) && isPaused == old(isPaused)
      ensures currentWordIndex == old(currentWordIndex)
      ensures supported == old(supported) && utterance == old(utterance)
      ensures synth == if old(supported) then old(synth) + [ResumeSpeech] else old(synth)
    {
      if !supported {
        return;
      }
      synth := synth + [ResumeSpeech];
    }

    /** `onstart` */
    method OnStart()
      requires Valid()
      modifies this`isPlaying, this`isPaused
      ensures Valid()
      ensures isPlaying && !isPaused
    {
      isPlaying, isPaused := true, false;
    }

    /** `onend` */
    method OnEnd()
      requires Valid()
      modifies this`isPlaying, this`isPaused, this`currentWordIndex
      ensures Valid()
      ensures !isPlaying && !isPaused && currentWordIndex == -1
    {
      isPlaying, isPaused, currentWordIndex := false, false, -1;
    }

    /** `onerror`: the highlighted word stays. */
    method OnError()
      requires Valid()
      modifies this`isPlaying, this`isPaused
      ensures Valid()
      ensures !isPlaying && !isPaused
    {
      isPlaying, isPaused := false, false;
    }

    /** `onpause` */
    method OnPause()
      requires Valid()
      modifies this`isPaused
      ensures Valid()
      ensures isPaused
    {
      isPaused := true;
    }

    /** `onresume` */
    method OnResume()
      requires Valid()
      modifies this`isPaused
      ensures Valid()
      ensures !isPaused
    {
      isPaused := false;
    }

    /** `onboundary` of the utterance of `text`: only word boundaries move the
        highlighted word. */
    method OnBoundary(text: string, name: string, charIndex: nat)
      requires Valid()
      modifies this`currentWordIndex
      ensures Valid()
      ensures name == "word" ==> currentWordIndex == WordIndex(text, charIndex)
      ensures name != "word" ==> currentWordIndex == old(currentWordIndex)
    {
      if name == "word" {
        var count := 0;
        if Trim(Prefix(text, charIndex)) != [] {
          count := |SplitOnSpaceRuns(Trim(Prefix(text, charIndex + 1)))| - 1;
        }
        currentWordIndex := count;
      }
    }
  }
}
