/** The records of the tutoring app (types.ts), as Dafny values. */
module Types {

  datatype Option<T> = None | Some(value: T)
  {
    function GetOr(default: T): T
    {
      match this
      case None => default
      case Some(v) => v
    }
  }

  /** CEFR levels a topic can be tagged with. */
  datatype DifficultyLevel = A1 | A2 | B1 | B2 | C1

  datatype Role = User | Assistant

  datatype ViewType = FreeChat | Topics | LevelTest

  /** A chat turn; `id` and `timestamp` come from Math.random and Date.now, here opaque inputs. */
  datatype Message = Message(id: string, role: Role, text: string, timestamp: int)

  datatype Correction = Correction(original: string, corrected: string, explanation: string, nativeAlternative: string)

  datatype VocabularyItem = VocabularyItem(id: string, word: string, translation: string, example: string, dateAdded: int)

  datatype Topic = Topic(
    id: string,
    title: string,
    icon: string,
    description: string,
    systemPrompt: string,
    initialMessage: string,
    difficulty: DifficultyLevel)

  datatype Skills = Skills(grammar: int, vocabulary: int, fluency: int)

  /** One entry of the proficiency-level history. */
  datatype LevelResult = LevelResult(level: string, score: int, feedback: string, timestamp: int, skills: Skills)
}
