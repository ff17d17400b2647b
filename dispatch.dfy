/**
 * `load_generator`: the recipe's `tool` picks the generator; a tool that
 * is not installed, or a tool no generator exists for, is a `ToolError`.
 * Whether each tool is installed is an input here.
 */
module Dispatch {
  import opened Wrappers
  import opened Text
  import opened Recipes
  import opened Generators

  datatype ToolError = NotAvailable(kind: ToolKind) | UnsupportedTool(tool: string)

  /** The text the `ToolError` carries. */
  function ToolMessage(e: ToolError): string {
    match e
    case NotAvailable(FFmpeg) => "FFmpeg is not available"
    case NotAvailable(ImageMagick) => "ImageMagick is not available"
    case UnsupportedTool(tool) => "Unsupported tool '" + tool + "'"
  }

  /** The generator kind for `tool`, checking only that tool's availability. */
  function SelectTool(tool: string, ffmpegAvailable: bool, imagemagickAvailable: bool): Result<ToolKind, ToolError> {
    if tool == "ffmpeg" then
      if !ffmpegAvailable then Err(NotAvailable(FFmpeg)) else Ok(FFmpeg)
    else if tool == "imagemagick" then
      if !imagemagickAvailable then Err(NotAvailable(ImageMagick)) else Ok(ImageMagick)
    else Err(UnsupportedTool(tool))
  }

  /**
   * `load_generator(recipe, dest)`: a new generator of the selected kind,
   * bound to `recipe` and `dest` and holding no templates, or the error.
   */
  method LoadGenerator(recipe: Recipe, dest: string, ffmpegAvailable: bool, imagemagickAvailable: bool)
    returns (res: Result<CorpusGenerator, ToolError>)
    ensures var sel := SelectTool(recipe.tool, ffmpegAvailable, imagemagickAvailable);
      res.Ok? == sel.Ok? && (res.Err? ==> res.error == sel.error)
    ensures res.Ok? ==>
      fresh(res.value) && res.value.templates == [] &&
      res.value.recipe == recipe && res.value.dest == dest &&
      res.value.kind == SelectTool(recipe.tool, ffmpegAvailable, imagemagickAvailable).value
  {
    var sel := SelectTool(recipe.tool, ffmpegAvailable, imagemagickAvailable);
    if sel.Err? {
      return Err(sel.error);
    }
    var g := new CorpusGenerator(sel.value, recipe, dest);
    return Ok(g);
  }

  // ---- properties ----

  /**
   * Dispatch succeeds exactly for a known tool that is installed, the kind
   * follows the tool's name, and every other name is reported as unsupported.
   */
  lemma SelectToolSpec(tool: string, ffmpegAvailable: bool, imagemagickAvailable: bool)
    ensures var sel := SelectTool(tool, ffmpegAvailable, imagemagickAvailable);
      (sel.Ok? <==> (tool == "ffmpeg" && ffmpegAvailable) || (tool == "imagemagick" && imagemagickAvailable)) &&
      (sel.Ok? ==> (sel.value == FFmpeg <==> tool == "ffmpeg")) &&
      (sel == Err(UnsupportedTool(tool)) <==> tool !in SUPPORTED_TOOLS) &&
      (sel.Err? && sel.error.NotAvailable? ==> tool in SUPPORTED_TOOLS)
  {
    assert SUPPORTED_TOOLS == ["ffmpeg", "imagemagick"];
  }

  /** A validated recipe names a supported tool, so it is never reported as unsupported. */
  lemma ValidToolDispatches(r: Recipe, ffmpegAvailable: bool, imagemagickAvailable: bool)
    requires Valid(r)
    ensures SelectTool(r.tool, ffmpegAvailable, imagemagickAvailable) != Err(UnsupportedTool(r.tool))
    ensures SelectTool(r.tool, true, true).Ok?
  {
    SelectToolSpec(r.tool, ffmpegAvailable, imagemagickAvailable);
    SelectToolSpec(r.tool, true, true);
  }

  /** The messages of the project's tests. */
  lemma ToolMessages()
    ensures ToolMessage(SelectTool("ffmpeg", false, true).error) == "FFmpeg is not available"
    ensures ToolMessage(SelectTool("imagemagick", true, false).error) == "ImageMagick is not available"
    ensures ToolMessage(SelectTool("unknown", false, false).error) == "Unsupported tool 'unknown'"
  {
  }
}
