/** The records that the build script emits and the site reads back (src/types/plateau.ts). */
module Types {

  /** One plateau (article): its header fields, the derived backlinks and its body text. */
  datatype Plateau = Plateau(
    id: int,
    title: string,
    cluster: int,
    clusterName: string,
    linksTo: seq<int>,
    linkedFrom: seq<int>,
    body: string)

  /** A keyword of the word field: the plateaus it appears in and its total weight. */
  datatype Keyword = Keyword(word: string, plateauIds: seq<int>, count: int)

  /** One morpheme as the kuromoji tokenizer reports it: surface form, part of speech and its first detail. */
  datatype Morpheme = Morpheme(surface: string, pos: string, subPos: string)
}
