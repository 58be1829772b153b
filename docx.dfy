/**
 * The already-decoded shape of a Word document, as the parser reads it:
 * an ordered list of paragraphs, each with its text, its runs and the name
 * of its paragraph style.
 */
module Docx {
  import opened Wrappers

  /** An explicit run colour; theme colours and "no colour" are `None` in `Run.color`. */
  datatype Rgb = Rgb(red: int, green: int, blue: int)

  /**
   * A run of text with uniform formatting. `bold` and `underline` are true
   * only when the run sets them explicitly (python-docx reports inherited
   * formatting as `None`, which the source treats as false).
   */
  datatype Run = Run(bold: bool, underline: bool, color: Option<Rgb>)

  /** A paragraph; `style` is the name of its style, if it has one. */
  datatype Paragraph = Paragraph(text: string, runs: seq<Run>, style: Option<string>)
}
