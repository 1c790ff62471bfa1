/** How `AVWriter::initialize_output` settles the output file name and the
    muxer before it creates any stream: the input's format decides the
    muxer, the input's extension is appended when the chosen name lacks
    it, and MPEG is the fallback when no muxer with video is found. */
module AVWriterNaming {
  import opened Common
  import opened PathNames

  /** An allocated output context, reduced to the name of its muxer and
      whether that muxer has a video codec. */
  datatype OutputFormat = OutputFormat(name: string, hasVideo: bool)

  /** `avformat_alloc_output_context2` by format name, given what FFmpeg
      knows of each name: nothing (null context), or whether the muxer has
      a video codec. */
  function Allocate(muxers: string -> Option<bool>, formatName: string): (r: Option<OutputFormat>)
    ensures r.Some? <==> muxers(formatName).Some?
    ensures r.Some? ==> r.value.name == formatName
  {
    match muxers(formatName)
    case None => None
    case Some(video) => Some(OutputFormat(formatName, video))
  }

  predicate Usable(context: Option<OutputFormat>) {
    context.Some? && context.value.hasVideo
  }

  datatype Prepared = Prepared(filename: string, context: Option<OutputFormat>)

  /** The file name and context after the naming stages, starting from the
      writer's current context. */
  function PrepareOutput(filename: string, inFormatName: string, inFileExtension: string,
                         muxers: string -> Option<bool>, current: Option<OutputFormat>): (r: Prepared)
    ensures |filename| <= |r.filename| && r.filename[..|filename|] == filename
  {
    var ext := FormatExtension(inFormatName);
    var named := if ext != [] && Extension(filename) != inFileExtension
                 then filename + inFileExtension else filename;
    var context := if ext != [] then Allocate(muxers, ext) else current;
    if Usable(context) then Prepared(named, context)
    else Prepared(named + ".mpg", Allocate(muxers, "mpeg"))
  }

  /** When the input format's muxer has video, the output ends with the
      input's extension: it is appended when the chosen name has another
      one. */
  lemma UsableFormatKeepsInputExtension(filename: string, inFormatName: string, inputName: string,
                                        muxers: string -> Option<bool>, current: Option<OutputFormat>)
    requires '.' in inputName
    requires FormatExtension(inFormatName) != []
    requires Usable(Allocate(muxers, FormatExtension(inFormatName)))
    ensures Extension(PrepareOutput(filename, inFormatName, Extension(inputName), muxers, current).filename)
         == Extension(inputName)
  {
    var inExt := Extension(inputName);
    if Extension(filename) != inExt {
      ExtensionOfExtension(inputName);
      ExtensionAfter(filename, inExt);
    }
  }

  /** Without a usable muxer the name gets ".mpg" and the MPEG muxer is
      used; with one, the name gets nothing else. */
  lemma FallbackToMpeg(filename: string, inFormatName: string, inFileExtension: string,
                       muxers: string -> Option<bool>, current: Option<OutputFormat>)
    ensures var ext := FormatExtension(inFormatName);
      var context := if ext != [] then Allocate(muxers, ext) else current;
      var r := PrepareOutput(filename, inFormatName, inFileExtension, muxers, current);
      && (!Usable(context) ==> EndsWith(r.filename, ".mpg") && r.context == Allocate(muxers, "mpeg"))
      && (Usable(context) ==>
            r.context == context && (r.filename == filename || r.filename == filename + inFileExtension))
  {
    var r := PrepareOutput(filename, inFormatName, inFileExtension, muxers, current);
    var ext := FormatExtension(inFormatName);
    var named := if ext != [] && Extension(filename) != inFileExtension
                 then filename + inFileExtension else filename;
    assert (named + ".mpg")[|named|..] == ".mpg";
  }

  class AVWriter {
    var formatContext: Option<OutputFormat>

    constructor ()
      ensures formatContext == None
    {
      formatContext := None;
    }

    /** The opening stages of `initialize_output`; false when no context
        could be allocated at all. */
    method InitializeOutputName(filename: string, inFormatName: string, inFileExtension: string,
                                muxers: string -> Option<bool>) returns (ok: bool, outName: string)
      modifies this
      ensures Prepared(outName, formatContext)
           == PrepareOutput(filename, inFormatName, inFileExtension, muxers, old(formatContext))
      ensures ok <==> formatContext.Some?
    {
      outName := filename;
      var str := inFormatName;
      var ext: string;
      var extPos := FirstIndexOf(str, ',');
      if extPos.Some? {
        ext := str[..extPos.value];
      } else {
        ext := str;
      }
      if ext != [] {
        var outFileExtension: string := [];
        var outExtensionPosition := LastIndexOf(outName, '.');
        if outExtensionPosition.Some? {
          outFileExtension := outName[outExtensionPosition.value..];
        }
        if outFileExtension != inFileExtension {
          outName := outName + inFileExtension;
        }
        formatContext := Allocate(muxers, ext);
      }
      if formatContext.None? || !formatContext.value.hasVideo {
        formatContext := None;
        outName := outName + ".mpg";
        formatContext := Allocate(muxers, "mpeg");
      }
      ok := formatContext.Some?;
    }
  }
}
