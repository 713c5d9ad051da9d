/**
 * What the activity feeds need of rendering. Markdown rendering is an opaque partial
 * function, and the only styling decision kept is the border of a comment card.
 */
module Render {
  import opened Wrappers

  /** The theme colour of a comment card's border. */
  datatype Border = PrimaryBorder | FaintBorder

  /**
   * The markdown renderer: `clean` stands for the line clean-up regular expression applied to
   * comment bodies, `markdown` for the terminal renderer, which may fail.
   */
  datatype Renderer = Renderer(clean: string -> string, markdown: string -> Option<string>)

  /** A selected card uses the primary border colour, any other the faint one. */
  function BorderFor(isSelected: bool): (b: Border)
    ensures b == PrimaryBorder <==> isSelected
  {
    if isSelected then PrimaryBorder else FaintBorder
  }
}
