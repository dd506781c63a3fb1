/** The editor's entities: transcript segments, voice samples and glossaries. */
module EditorTypes {

  datatype Segment = Segment(
    id: string,
    speakerId: string,
    speakerName: string,
    start: real,
    end: real,
    originalText: string,
    translatedText: string,
    reviewing: bool)

  datatype Gender = Male | Female | Neutral

  datatype VoiceSample = VoiceSample(id: string, name: string, language: string, gender: Gender, previewUrl: string)

  datatype GlossaryItem = GlossaryItem(id: string, term: string, definition: string, context: string, language: string)

  datatype Glossary = Glossary(id: string, name: string, language: string, items: seq<GlossaryItem>)
}
