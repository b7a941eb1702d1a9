/**
 * The app's localisation layer: the three display languages, the static
 * catalogue of translated strings, the lookup with English fallback, and the
 * provider that holds the current language.
 */
module LanguageContext {

  /** The display languages; the provider starts in English. */
  datatype Language = Hindi | English | Punjabi

  /** The keys of the translation catalogue. */
  datatype MessageKey =
    AppName | WelcomeMessage | VideoConsultation | HealthRecords | MedicineAvailability | SymptomChecker
    | OfflineMode | AvailableDoctors | Available | Busy | Specialty | NextSlot
    | CallNow | BookAppointment | Connecting | AddNewRecord | UploadFile | TakePhoto
    | YourRecords | View | Synced | Local | SearchMedicine | CallStore
    | Direction | Open | Closed | AvailableMedicines | OutOfStock | AiSymptomChecker
    | SelectSymptoms | Analyze | Clear | Result | Advice | NewCheck
    | ConsultDoctor | Fever | Headache | Cough | Fatigue | BodyPain
    | Nausea | ChestPain | BreathingDifficulty | Others | DescribeSymptoms

  /** One catalogue row: the text of a key in each language. */
  datatype Entry = Entry(hindi: string, english: string, punjabi: string)

  /** The string a row holds for a language (possibly empty). */
  function Pick(e: Entry, l: Language): string {
    match l
    case Hindi => e.hindi
    case English => e.english
    case Punjabi => e.punjabi
  }

  /** The shipped translation catalogue. */
  function Catalogue(k: MessageKey): Entry {
    match k
    case AppName => Entry("सेहत नभा", "Sehat Nabha", "ਸਿਹਤ ਨਭਾ")
    case WelcomeMessage => Entry("नमस्ते! आपके स्वास्थ्य की देखभाल", "Hello! Your Health Companion", "ਸਤ ਸ੍ਰੀ ਅਕਾਲ! ਤੁਹਾਡੀ ਸਿਹਤ ਦੀ ਦੇਖਭਾਲ")
    case VideoConsultation => Entry("वीडियो सलाह", "Video Consultation", "ਵੀਡੀਓ ਸਲਾਹ")
    case HealthRecords => Entry("स्वास्थ्य रिकॉर्ड", "Health Records", "ਸਿਹਤ ਰਿਕਾਰਡ")
    case MedicineAvailability => Entry("दवा उपलब्धता", "Medicine Availability", "ਦਵਾਈ ਉਪਲਬਧਤਾ")
    case SymptomChecker => Entry("लक्षण जांच", "Symptom Checker", "ਲੱਛਣ ਜਾਂਚ")
    case OfflineMode => Entry("ऑफलाइन मोड - कुछ फीचर सीमित हो सकते हैं", "Offline Mode - Some features may be limited", "ਆਫਲਾਈਨ ਮੋਡ - ਕੁਝ ਫੀਚਰ ਸੀਮਿਤ ਹੋ ਸਕਦੇ ਹਨ")
    case AvailableDoctors => Entry("उपलब्ध डॉक्टर", "Available Doctors", "ਉਪਲਬਧ ਡਾਕਟਰ")
    case Available => Entry("उपलब्ध", "Available", "ਉਪਲਬਧ")
    case Busy => Entry("व्यस्त", "Busy", "ਵਿਅਸਤ")
    case Specialty => Entry("विशेषज्ञता:", "Specialty:", "ਵਿਸ਼ੇਸ਼ਗਿਆ:")
    case NextSlot => Entry("अगला स्लॉट:", "Next Slot:", "ਅਗਲਾ ਸਲਾਟ:")
    case CallNow => Entry("अभी कॉल करें", "Call Now", "ਹੁਣੇ ਕਾਲ ਕਰੋ")
    case BookAppointment => Entry("अपॉइंटमेंट बुक करें", "Book Appointment", "ਅਪਾਇੰਟਮੈਂਟ ਬੁੱਕ ਕਰੋ")
    case Connecting => Entry("कनेक्ट हो रहा...", "Connecting...", "ਕਨੈਕਟ ਹੋ ਰਿਹਾ...")
    case AddNewRecord => Entry("नया रिकॉर्ड जोड़ें", "Add New Record", "ਨਵਾਂ ਰਿਕਾਰਡ ਜੋੜੋ")
    case UploadFile => Entry("फाइल अपलोड", "Upload File", "ਫਾਇਲ ਅਪਲੋਡ")
    case TakePhoto => Entry("फोटो लें", "Take Photo", "ਫੋਟੋ ਲਓ")
    case YourRecords => Entry("आपके रिकॉर्ड", "Your Records", "ਤੁਹਾਡੇ ਰਿਕਾਰਡ")
    case View => Entry("देखें", "View", "ਵੇਖੋ")
    case Synced => Entry("सिंक हुआ", "Synced", "ਸਿੰਕ ਹੋਇਆ")
    case Local => Entry("लोकल", "Local", "ਲੋਕਲ")
    case SearchMedicine => Entry("दवा या मेडिकल स्टोर खोजें", "Search medicine or store", "ਦਵਾਈ ਜਾਂ ਮੈਡੀਕਲ ਸਟੋਰ ਖੋਜੋ")
    case CallStore => Entry("कॉल करें", "Call", "ਕਾਲ ਕਰੋ")
    case Direction => Entry("दिशा", "Direction", "ਦਿਸ਼ਾ")
    case Open => Entry("खुला", "Open", "ਖੁੱਲ੍ਹਾ")
    case Closed => Entry("बंद", "Closed", "ਬੰਦ")
    case AvailableMedicines => Entry("उपलब्ध दवाएं:", "Available Medicines:", "ਉਪਲਬਧ ਦਵਾਈਆਂ:")
    case OutOfStock => Entry("खत्म", "Out of Stock", "ਖਤਮ")
    case AiSymptomChecker => Entry("AI लक्षण जांच", "AI Symptom Checker", "AI ਲੱਛਣ ਜਾਂਚ")
    case SelectSymptoms => Entry("अपने लक्षण चुनें", "Select Your Symptoms", "ਆਪਣੇ ਲੱਛਣ ਚੁਣੋ")
    case Analyze => Entry("जांच करें", "Analyze", "ਜਾਂਚ ਕਰੋ")
    case Clear => Entry("साफ करें", "Clear", "ਸਾਫ਼ ਕਰੋ")
    case Result => Entry("परिणाम", "Result", "ਨਤੀਜਾ")
    case Advice => Entry("सलाह:", "Advice:", "ਸਲਾਹ:")
    case NewCheck => Entry("नई जांच", "New Check", "ਨਵੀਂ ਜਾਂਚ")
    case ConsultDoctor => Entry("डॉक्टर से मिलें", "Consult Doctor", "ਡਾਕਟਰ ਨੂੰ ਮਿਲੋ")
    case Fever => Entry("बुखार", "Fever", "ਬੁਖਾਰ")
    case Headache => Entry("सिर दर्द", "Headache", "ਸਿਰ ਦਰਦ")
    case Cough => Entry("खांसी", "Cough", "ਖੰਘ")
    case Fatigue => Entry("थकावट", "Fatigue", "ਥਕਾਵਟ")
    case BodyPain => Entry("शरीर दर्द", "Body Pain", "ਸਰੀਰ ਦਰਦ")
    case Nausea => Entry("मतली", "Nausea", "ਮਤਲੀ")
    case ChestPain => Entry("छाती का दर्द", "Chest Pain", "ਛਾਤੀ ਦਾ ਦਰਦ")
    case BreathingDifficulty => Entry("सांस लेने में कठिनाई", "Breathing Difficulty", "ਸਾਹ ਲੈਣ ਵਿੱਚ ਮੁਸ਼ਕਿਲ")
    case Others => Entry("अन्य", "Others", "ਹੋਰ")
    case DescribeSymptoms => Entry("अपने लक्षणों का वर्णन करें...", "Describe your symptoms...", "ਆਪਣੇ ਲੱਛਣਾਂ ਦਾ ਵਰਣਨ ਕਰੋ...")
  }

  /** Every row of the shipped catalogue has a non-empty string in every language. */
  lemma CatalogueComplete(k: MessageKey, l: Language)
    ensures Pick(Catalogue(k), l) != ""
  {
    // one case per row, so that each row's three strings are checked on their own
    match k
    case AppName => case WelcomeMessage => case VideoConsultation => case HealthRecords =>
    case MedicineAvailability => case SymptomChecker => case OfflineMode => case AvailableDoctors =>
    case Available => case Busy => case Specialty => case NextSlot =>
    case CallNow => case BookAppointment => case Connecting => case AddNewRecord =>
    case UploadFile => case TakePhoto => case YourRecords => case View =>
    case Synced => case Local => case SearchMedicine => case CallStore =>
    case Direction => case Open => case Closed => case AvailableMedicines =>
    case OutOfStock => case AiSymptomChecker => case SelectSymptoms => case Analyze =>
    case Clear => case Result => case Advice => case NewCheck =>
    case ConsultDoctor => case Fever => case Headache => case Cough =>
    case Fatigue => case BodyPain => case Nausea => case ChestPain =>
    case BreathingDifficulty => case Others => case DescribeSymptoms =>
  }

  /**
   * `translations[key][language] || translations[key].english`: the requested
   * language's string when it is non-empty, the English string otherwise.
   */
  function Resolve(e: Entry, l: Language): (r: string)
    ensures Pick(e, l) != "" ==> r == Pick(e, l)
    ensures Pick(e, l) == "" ==> r == e.english
    ensures l == English ==> r == e.english
  {
    if Pick(e, l) != "" then Pick(e, l) else e.english
  }

  /**
   * `getTranslation(key, language)`. Keys are restricted to the catalogue's
   * own, so the lookup is total; because the catalogue is complete, the
   * fallback is never taken and the result is the requested language's text.
   */
  function GetTranslation(k: MessageKey, l: Language): (r: string)
    ensures r == Pick(Catalogue(k), l)
    ensures r != ""
    ensures l == English ==> r == Catalogue(k).english
  {
    CatalogueComplete(k, l);
    Resolve(Catalogue(k), l)
  }

  /**
   * A string taken from a screen's own inline translation table (the
   * `language === 'hindi' ? ... : ...` chains), identified by its key and the
   * language it was chosen for. The literal texts are not modelled.
   */
  datatype LocalText<K> = LocalText(key: K, language: Language)

  /** `LanguageProvider`: the single cell holding the current language. */
  class LanguageProvider {
    var language: Language

    constructor ()
      ensures language == English
    {
      language := English;
    }

    /** The text a screen renders for `k` under the current language. */
    function Translate(k: MessageKey): (r: string)
      reads this
      ensures r == Pick(Catalogue(k), language) && r != ""
    {
      GetTranslation(k, language)
    }

    /** `setLanguage(l)`: replaces the language; every later lookup uses it. */
    method SetLanguage(l: Language)
      modifies this
      ensures language == l
      ensures forall k :: Translate(k) == GetTranslation(k, l)
    {
      language := l;
    }
  }
}
