/** The audio manager's volume control and its check of which files it will
    load. The Web Audio graph, media elements and the microphone are not
    modelled; the gain node and the media element appear only as the volume
    each currently holds, when it exists. */
module AudioManager {
  import opened Common

  /** A file picked by the user: its name and its MIME type ("" when the
      browser gives none). */
  datatype AudioFile = AudioFile(name: string, mimeType: string)

  const ValidTypes: seq<string> := [
    "audio/mpeg", "audio/mp3",
    "audio/wav", "audio/wave",
    "audio/ogg", "audio/vorbis",
    "audio/mp4", "audio/m4a",
    "audio/aac", "audio/flac"
  ]

  const ValidExtensions: seq<string> := [".mp3", ".wav", ".ogg", ".m4a", ".aac", ".flac"]

  /** `extensions.some(ext => name.endsWith(ext))` */
  function EndsWithAny(name: string, extensions: seq<string>): (r: bool)
    ensures r <==> exists i :: 0 <= i < |extensions| && EndsWith(name, extensions[i])
  {
    if |extensions| == 0 then false
    else EndsWith(name, extensions[0]) || EndsWithAny(name, extensions[1..])
  }

  /** validateAudioFile: a listed MIME type, or a listed extension at the end
      of the lower-cased name. */
  predicate ValidateAudioFile(file: AudioFile)
  {
    file.mimeType in ValidTypes || EndsWithAny(Lower(file.name), ValidExtensions)
  }

  /** A listed MIME type is enough, whatever the name. */
  lemma TypeSuffices(name: string, mimeType: string)
    requires mimeType in ValidTypes
    ensures ValidateAudioFile(AudioFile(name, mimeType))
  {
  }

  /** A listed extension in any mix of cases is enough, whatever the type. */
  lemma ExtensionSuffices(stem: string, ext: string, i: int, mimeType: string)
    requires 0 <= i < |ValidExtensions| && Lower(ext) == ValidExtensions[i]
    ensures ValidateAudioFile(AudioFile(stem + ext, mimeType))
  {
    var lowered := Lower(stem + ext);
    LowerConcat(stem, ext);
    assert lowered[|lowered| - |ext|..] == Lower(ext);
    assert EndsWith(lowered, ValidExtensions[i]);
  }

  /** Every listed extension starts with a dot. */
  lemma ExtensionsDotted(i: int)
    requires 0 <= i < |ValidExtensions|
    ensures |ValidExtensions[i]| >= 4 && ValidExtensions[i][0] == '.'
  {
  }

  /** A file accepted by its name alone has a dot in its name followed by
      at least three more characters (the dot is at position |name| - 4 or
      earlier). */
  lemma NameAcceptanceNeedsDot(file: AudioFile)
    requires file.mimeType !in ValidTypes && ValidateAudioFile(file)
    ensures exists k :: 0 <= k <= |file.name| - 4 && file.name[k] == '.'
  {
    var lowered := Lower(file.name);
    var i :| 0 <= i < |ValidExtensions| && EndsWith(lowered, ValidExtensions[i]);
    ExtensionsDotted(i);
    var k := |lowered| - |ValidExtensions[i]|;
    assert lowered[k] == ValidExtensions[i][0] == '.';
    assert LowerChar(file.name[k]) == '.';
  }

  /** The upper-case name passes with no type at all. */
  lemma UpperCaseNamePasses()
    ensures ValidateAudioFile(AudioFile("SONG.MP3", ""))
  {
    ExtensionSuffices("SONG", ".MP3", 0, "");
    assert "SONG" + ".MP3" == "SONG.MP3";
  }

  /** A text file is refused. */
  lemma TextFileRefused()
    ensures !ValidateAudioFile(AudioFile("notes.txt", "text/plain"))
  {
    var notes := Lower("notes.txt");
    assert notes == "notes.txt";
    assert notes[|notes| - 4..] == ".txt";
    assert notes[|notes| - 5..] == "s.txt";
  }

  /** A bare "mp3", with no dot, is refused. */
  lemma BareExtensionRefused()
    ensures !ValidateAudioFile(AudioFile("mp3", ""))
  {
  }

  class Manager {
    var volume: real
    /** The master gain node's gain, when the node exists. */
    var gain: Option<real>
    /** The media element's volume, when an element is loaded. */
    var mediaVolume: Option<real>

    ghost predicate Valid()
      reads this
    {
      0.0 <= volume <= 1.0
    }

    constructor()
      ensures Valid() && volume == 1.0 && gain == None && mediaVolume == None
    {
      volume := 1.0;
      gain := None;
      mediaVolume := None;
    }

    /** setVolume: clamped to [0, 1] and passed on to the gain node and the
        media element when they exist. */
    method SetVolume(v: real)
      modifies this
      ensures Valid()
      ensures 0.0 <= v <= 1.0 ==> volume == v
      ensures v < 0.0 ==> volume == 0.0
      ensures v > 1.0 ==> volume == 1.0
      ensures gain == (if old(gain).Some? then Some(volume) else None)
      ensures mediaVolume == (if old(mediaVolume).Some? then Some(volume) else None)
    {
      volume := ClampR(v, 0.0, 1.0);
      if gain.Some? {
        gain := Some(volume);
      }
      if mediaVolume.Some? {
        mediaVolume := Some(volume);
      }
    }

    function GetVolume(): (v: real)
      requires Valid()
      reads this
      ensures 0.0 <= v <= 1.0
    {
      volume
    }
  }
}
