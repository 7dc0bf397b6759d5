/** The records the screens exchange with the API layer (src/types/index.ts).
    Dates are kept as the millisecond timestamps `new Date(createdAt).getTime()`
    yields, since the screens only ever compare them. */
module Types {
  import opened Base

  datatype User = User(id: string, email: string, name: Option<string>, createdAt: int)

  datatype AuthState = AuthState(
    user: Option<User>,
    isAuthenticated: bool,
    isLoading: bool,
    error: Option<string>)

  datatype WordList = WordList(
    id: string,
    name: string,
    description: string,
    context: Option<string>,
    source: Option<string>,
    language: Option<string>,
    createdAt: int,
    wordCount: int,
    progress: real)

  datatype Word = Word(
    id: string,
    listId: string,
    value: string,
    meaning: string,
    context: Option<string>,
    createdAt: int,
    imageUrl: Option<string>,
    pronunciationUrl: Option<string>)

  datatype ExerciseType = MultipleChoice | FillBlank | Match | Write

  datatype Exercise = Exercise(
    id: string,
    kind: ExerciseType,
    question: string,
    options: Option<seq<string>>,
    correctAnswer: string)

  datatype ThemeType = Light | Dark | System

  datatype Settings = Settings(
    theme: ThemeType,
    notifications: bool,
    defaultLanguage: string,
    sessionLength: int,
    autoPlayPronunciation: bool)
}
