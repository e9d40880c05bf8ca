/** The form panel: the fixed option lists, the topic field with its
    suggestion dropdown, the change handlers that update one field of the
    shared form record at a time, and the two generate buttons. */
module Config {
  import opened Optional
  import opened Text
  import opened Lists
  import opened FormTypes
  import opened Gemini
  import opened Application

  const Subjects: seq<string> :=
    ["Toán", "Tiếng Việt", "Khoa học", "Lịch sử và Địa lý", "Đạo đức", "Âm nhạc", "Mỹ thuật"]
  const Grades: seq<string> := ["Lớp 1", "Lớp 2", "Lớp 3", "Lớp 4", "Lớp 5"]
  const QuestionTypes: seq<string> := ["Trắc nghiệm", "Tự luận", "Điền vào chỗ trống", "Đúng/Sai", "Nối cặp"]
  const Difficulties: seq<string> := ["Nhận biết", "Thông hiểu", "Nâng cao"]
  const AllTopics: seq<string> := [
    "Phép cộng trong phạm vi 10", "Phép trừ trong phạm vi 20", "Đọc, viết số có hai chữ số",
    "So sánh các số", "Xem giờ đúng", "Hình vuông, hình tròn", "Giải bài toán có lời văn",
    "Bảng nhân 2", "Bảng chia 5", "Từ chỉ sự vật", "Câu Ai là gì?", "Viết đoạn văn ngắn",
    "Kể chuyện"]
  const ExerciseTypes: seq<string> := ["Bài tập hàng ngày", "Bài ôn tập", "Kiểm tra nhanh", "Đề thi cuối kỳ"]
  const Tones: seq<string> := ["Thân thiện, vui vẻ", "Học thuật, nghiêm túc"]

  /** The fields edited through a text input or the textarea. The subject
      is a free input; its list only feeds the browser's datalist. */
  predicate IsInputField(name: TextField) {
    name == Subject || name == Quantity || name == AdditionalRequirements
  }

  /** The fields edited through a select, with the options it offers. */
  predicate IsSelectField(name: TextField) {
    name == Grade || name == QuestionType || name == Difficulty || name == ExerciseType || name == Tone
  }

  function Options(name: TextField): seq<string>
    requires IsSelectField(name)
  {
    match name
    case Grade => Grades
    case QuestionType => QuestionTypes
    case Difficulty => Difficulties
    case ExerciseType => ExerciseTypes
    case Tone => Tones
  }

  /** Every select shows one of its own options. */
  predicate SelectsValid(f: FormData) {
    forall name :: IsSelectField(name) ==> TextOf(f, name) in Options(name)
  }

  lemma DefaultFormIsSelectable()
    ensures SelectsValid(DefaultForm)
  {
    forall name | IsSelectField(name)
      ensures TextOf(DefaultForm, name) in Options(name)
    {
      match name
      case Grade => assert Grades[2] == "Lớp 3";
      case QuestionType => assert QuestionTypes[0] == "Trắc nghiệm";
      case Difficulty => assert Difficulties[1] == "Thông hiểu";
      case ExerciseType => assert ExerciseTypes[0] == "Bài tập hàng ngày";
      case Tone => assert Tones[0] == "Thân thiện, vui vẻ";
    }
  }

  /** `{ ...prev, [name]: value }` for a text field. */
  function WithText(f: FormData, name: TextField, value: string): (g: FormData)
    ensures TextOf(g, name) == value
    ensures forall other :: other != name ==> TextOf(g, other) == TextOf(f, other)
    ensures forall flag :: FlagOf(g, flag) == FlagOf(f, flag)
  {
    match name
    case Subject => f.(subject := value)
    case Grade => f.(grade := value)
    case QuestionType => f.(questionType := value)
    case Quantity => f.(quantity := value)
    case Difficulty => f.(difficulty := value)
    case Topic => f.(topic := value)
    case AdditionalRequirements => f.(additionalRequirements := value)
    case ExerciseType => f.(exerciseType := value)
    case Tone => f.(tone := value)
  }

  /** `{ ...prev, [name]: checked }` for a checkbox. */
  function WithFlag(f: FormData, name: FlagField, checked: bool): (g: FormData)
    ensures FlagOf(g, name) == checked
    ensures forall other :: other != name ==> FlagOf(g, other) == FlagOf(f, other)
    ensures forall field :: TextOf(g, field) == TextOf(f, field)
  {
    match name
    case IncludeAnswers => f.(includeAnswers := checked)
    case UseLatex => f.(useLatex := checked)
  }

  /** Two records that agree on every field are the same record, so the
      guarantees above leave nothing else to change. */
  lemma FieldsDetermineForm(f: FormData, g: FormData)
    requires forall name :: TextOf(f, name) == TextOf(g, name)
    requires forall flag :: FlagOf(f, flag) == FlagOf(g, flag)
    ensures f == g
  {
    assert TextOf(f, Subject) == TextOf(g, Subject);
    assert TextOf(f, Grade) == TextOf(g, Grade);
    assert TextOf(f, QuestionType) == TextOf(g, QuestionType);
    assert TextOf(f, Quantity) == TextOf(g, Quantity);
    assert TextOf(f, Difficulty) == TextOf(g, Difficulty);
    assert TextOf(f, Topic) == TextOf(g, Topic);
    assert TextOf(f, AdditionalRequirements) == TextOf(g, AdditionalRequirements);
    assert TextOf(f, ExerciseType) == TextOf(g, ExerciseType);
    assert TextOf(f, Tone) == TextOf(g, Tone);
    assert FlagOf(f, IncludeAnswers) == FlagOf(g, IncludeAnswers);
    assert FlagOf(f, UseLatex) == FlagOf(g, UseLatex);
  }

  /** The topics whose lower-case form contains `needle`, in list order. */
  function TopicsContaining(topics: seq<string>, needle: string): (r: seq<string>)
    ensures forall t :: t in r <==> t in topics && Includes(Lower(t), needle)
    ensures IsSubsequence(r, topics)
    ensures forall t :: multiset(r)[t] == if Includes(Lower(t), needle) then multiset(topics)[t] else 0
  {
    if topics == [] then []
    else
      assert topics == [topics[0]] + topics[1..];
      var rest := TopicsContaining(topics[1..], needle);
      if Includes(Lower(topics[0]), needle) then [topics[0]] + rest else rest
  }

  /** `topicSuggestions`: nothing for an empty query, otherwise the topics
      that contain the query, ignoring case. */
  function Suggestions(query: string): (r: seq<string>)
    ensures query == "" ==> r == []
    ensures query != "" ==> forall t :: t in r <==> t in AllTopics && Includes(Lower(t), Lower(query))
    ensures IsSubsequence(r, AllTopics)
  {
    if query == "" then [] else TopicsContaining(AllTopics, Lower(query))
  }

  lemma LowerIdempotent(s: string)
    ensures Lower(Lower(s)) == Lower(s)
  {
    forall i | 0 <= i < |s|
      ensures Lower(Lower(s))[i] == Lower(s)[i]
    {
      assert !IsUpper(Lower(s)[i]);
    }
  }

  /** Typing the query in another case gives the same suggestions. */
  lemma SuggestionsIgnoreCase(query: string)
    ensures Suggestions(Lower(query)) == Suggestions(query)
  {
    LowerIdempotent(query);
  }

  class ConfigPanel {
    const app: App
    var topicQuery: string
    var isTopicFocused: bool

    /** The topic field shows what the form holds. */
    ghost predicate Synced()
      reads this, app
    {
      topicQuery == app.form.topic
    }

    /** Mounting: the query starts from the form's topic, unfocused. */
    constructor (app: App)
      ensures this.app == app
      ensures topicQuery == app.form.topic && !isTopicFocused
      ensures Synced()
    {
      this.app := app;
      topicQuery := app.form.topic;
      isTopicFocused := false;
    }

    /** The dropdown is rendered only while the field has focus and there
        is something to suggest. */
    predicate DropdownVisible()
      reads this
    {
      isTopicFocused && |Suggestions(topicQuery)| > 0
    }

    /** `handleInputChange`, used by the subject and quantity inputs and the
        additional-requirements textarea. */
    method InputChange(name: TextField, value: string)
      requires IsInputField(name)
      modifies app`form
      ensures app.form == WithText(old(app.form), name, value)
      ensures old(Synced()) ==> Synced()
    {
      app.form := WithText(app.form, name, value);
    }

    /** `handleSelectChange`; a select only reports one of its options. */
    method SelectChange(name: TextField, value: string)
      requires IsSelectField(name) && value in Options(name)
      modifies app`form
      ensures app.form == WithText(old(app.form), name, value)
      ensures old(Synced()) ==> Synced()
      ensures SelectsValid(old(app.form)) ==> SelectsValid(app.form)
    {
      app.form := WithText(app.form, name, value);
    }

    /** `handleCheckboxChange`. */
    method CheckboxChange(name: FlagField, checked: bool)
      modifies app`form
      ensures app.form == WithFlag(old(app.form), name, checked)
      ensures old(Synced()) ==> Synced()
      ensures SelectsValid(old(app.form)) ==> SelectsValid(app.form)
    {
      app.form := WithFlag(app.form, name, checked);
    }

    /** `handleTopicChange`: the query and the form's topic move together. */
    method TopicChange(value: string)
      modifies this`topicQuery, app`form
      ensures topicQuery == value && app.form == old(app.form).(topic := value)
      ensures Synced()
    {
      topicQuery := value;
      app.form := app.form.(topic := value);
    }

    /** `handleSuggestionClick`: take the suggestion and close the dropdown. */
    method SuggestionClick(suggestion: string)
      modifies this`topicQuery, this`isTopicFocused, app`form
      ensures topicQuery == suggestion && app.form == old(app.form).(topic := suggestion)
      ensures !isTopicFocused && !DropdownVisible()
      ensures Synced()
    {
      topicQuery := suggestion;
      app.form := app.form.(topic := suggestion);
      isTopicFocused := false;
    }

    method Focus()
      modifies this`isTopicFocused
      ensures isTopicFocused
      ensures DropdownVisible() <==> |Suggestions(topicQuery)| > 0
    {
      isTopicFocused := true;
    }

    /** The blur handler's timer, 200 ms after focus is lost. */
    method BlurTimerFires()
      modifies this`isTopicFocused
      ensures !isTopicFocused && !DropdownVisible()
    {
      isTopicFocused := false;
    }

    /** Either generate button: disabled while loading, so a press then does
        nothing; otherwise the generation starts for the current form. */
    method PressGenerate() returns (request: Option<Request>)
      modifies app`content, app`isLoading, app`error
      ensures old(app.isLoading) ==> request == None && unchanged(app)
      ensures !old(app.isLoading) ==>
        && request == Some(RequestFor(app.form))
        && app.isLoading && app.content == "" && app.error == None
        && app.Valid()
    {
      if app.isLoading {
        request := None;
      } else {
        var r := app.StartGenerate();
        request := Some(r);
      }
    }
  }
}
