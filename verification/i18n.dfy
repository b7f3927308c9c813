/** The translation lookup of the panel: constant per-locale tables and the
    function `t(key, language)` with its fallback from the requested locale to
    English to the key itself.

    The tables are objects whose property names are the message keys. Here
    the 65 property names form the datatype `MessageKey`, and each locale's
    table is a total function on it, so that the three tables defining exactly
    the same keys is checked by Dafny's exhaustiveness check on each `match`. A
    key string selects a property through `ParseKey`. */
module I18n {
  import opened Common

  /** The property names of the translation tables, in source order. */
  datatype MessageKey =
    // Navigation
      Dashboard
    | Workers
    | QrGenerator
    | Statistics
    // Dashboard
    | TotalWorkers
    | TotalQRCodes
    | TotalScans
    | QuickActions
    | AddNewWorker
    | GenerateQRCode
    | ViewStatistics
    // Workers
    | WorkersList
    | WorkerName
    | WorkerCode
    | ViewQRCodes
    | DeleteWorker
    | ErrorAddingWorker
    | ErrorFetchingData
    | ErrorDeletingWorker
    | ErrorDeletingQR
    | SearchQRCodes
    // QR Generator
    | SelectWorker
    | Purpose
    | ProductCode
    | DestinationURL
    | Generate
    | Download
    | Delete
    | ViewQR
    | QrCode
    | QrCodes
    | OpenQR
    // Statistics
    | ScanActivity
    | Last7Days
    | Last30Days
    | LastYear
    | ScansPerDay
    | RecentScans
    | UnknownWorker
    | UnknownPurpose
    | UnknownDevice
    | Device
    | From
    | ShowAllScans
    | ShowLocations
    | AllScans
    | ScanLocations
    // Common
    | Loading
    | Error
    | Success
    | Cancel
    | Save
    | Edit
    | Created
    | Scans
    | Redirecting
    | InvalidQRCode
    | Destination
    | AutomaticRedirect
    // Worker management
    | SearchWorkers
    | Sort
    | SortAsc
    | SortDesc
    | UsernameLabel
    | FilterWorkers

  /** The table property a key string selects, if the tables have one. */
  function ParseKey(s: string): Option<MessageKey> {
    match s
    case "dashboard" => Some(Dashboard)
    case "workers" => Some(Workers)
    case "qrGenerator" => Some(QrGenerator)
    case "statistics" => Some(Statistics)
    case "totalWorkers" => Some(TotalWorkers)
    case "totalQRCodes" => Some(TotalQRCodes)
    case "totalScans" => Some(TotalScans)
    case "quickActions" => Some(QuickActions)
    case "addNewWorker" => Some(AddNewWorker)
    case "generateQRCode" => Some(GenerateQRCode)
    case "viewStatistics" => Some(ViewStatistics)
    case "workersList" => Some(WorkersList)
    case "workerName" => Some(WorkerName)
    case "workerCode" => Some(WorkerCode)
    case "viewQRCodes" => Some(ViewQRCodes)
    case "deleteWorker" => Some(DeleteWorker)
    case "errorAddingWorker" => Some(ErrorAddingWorker)
    case "errorFetchingData" => Some(ErrorFetchingData)
    case "errorDeletingWorker" => Some(ErrorDeletingWorker)
    case "errorDeletingQR" => Some(ErrorDeletingQR)
    case "searchQRCodes" => Some(SearchQRCodes)
    case "selectWorker" => Some(SelectWorker)
    case "purpose" => Some(Purpose)
    case "productCode" => Some(ProductCode)
    case "destinationURL" => Some(DestinationURL)
    case "generate" => Some(Generate)
    case "download" => Some(Download)
    case "delete" => Some(Delete)
    case "viewQR" => Some(ViewQR)
    case "qrCode" => Some(QrCode)
    case "qrCodes" => Some(QrCodes)
    case "openQR" => Some(OpenQR)
    case "scanActivity" => Some(ScanActivity)
    case "last7Days" => Some(Last7Days)
    case "last30Days" => Some(Last30Days)
    case "lastYear" => Some(LastYear)
    case "scansPerDay" => Some(ScansPerDay)
    case "recentScans" => Some(RecentScans)
    case "unknownWorker" => Some(UnknownWorker)
    case "unknownPurpose" => Some(UnknownPurpose)
    case "unknownDevice" => Some(UnknownDevice)
    case "device" => Some(Device)
    case "from" => Some(From)
    case "showAllScans" => Some(ShowAllScans)
    case "showLocations" => Some(ShowLocations)
    case "allScans" => Some(AllScans)
    case "scanLocations" => Some(ScanLocations)
    case "loading" => Some(Loading)
    case "error" => Some(Error)
    case "success" => Some(Success)
    case "cancel" => Some(Cancel)
    case "save" => Some(Save)
    case "edit" => Some(Edit)
    case "created" => Some(Created)
    case "scans" => Some(Scans)
    case "redirecting" => Some(Redirecting)
    case "invalidQRCode" => Some(InvalidQRCode)
    case "destination" => Some(Destination)
    case "automaticRedirect" => Some(AutomaticRedirect)
    case "searchWorkers" => Some(SearchWorkers)
    case "sort" => Some(Sort)
    case "sortAsc" => Some(SortAsc)
    case "sortDesc" => Some(SortDesc)
    case "usernameLabel" => Some(UsernameLabel)
    case "filterWorkers" => Some(FilterWorkers)
    case _ => None
  }

  /** The `en` table (src/lib/i18n.js:24-103). */
  function EnText(k: MessageKey): string {
    match k
    case Dashboard => "Dashboard"
    case Workers => "Workers"
    case QrGenerator => "QR Generator"
    case Statistics => "Statistics"
    case TotalWorkers => "Total Workers"
    case TotalQRCodes => "Total QR Codes"
    case TotalScans => "Total Scans"
    case QuickActions => "Quick Actions"
    case AddNewWorker => "Add New Worker"
    case GenerateQRCode => "Generate QR Code"
    case ViewStatistics => "View Statistics"
    case WorkersList => "Workers List"
    case WorkerName => "Worker Name"
    case WorkerCode => "Worker Code"
    case ViewQRCodes => "View QR Codes"
    case DeleteWorker => "Delete Worker"
    case ErrorAddingWorker => "Failed to add worker. Please try again."
    case ErrorFetchingData => "Failed to fetch data"
    case ErrorDeletingWorker => "Failed to delete worker"
    case ErrorDeletingQR => "Failed to delete QR code"
    case SearchQRCodes => "Search QR codes..."
    case SelectWorker => "Select Worker"
    case Purpose => "Purpose"
    case ProductCode => "Product Code"
    case DestinationURL => "Destination URL"
    case Generate => "Generate"
    case Download => "Download QR Code"
    case Delete => "Delete"
    case ViewQR => "View QR"
    case QrCode => "QR Code"
    case QrCodes => "QR Codes"
    case OpenQR => "Open QR"
    case ScanActivity => "Scan Activity"
    case Last7Days => "Last 7 Days"
    case Last30Days => "Last 30 Days"
    case LastYear => "Last Year"
    case ScansPerDay => "Scans per Day"
    case RecentScans => "Recent Scans"
    case UnknownWorker => "Unknown Worker"
    case UnknownPurpose => "Unknown Purpose"
    case UnknownDevice => "Unknown Device"
    case Device => "Device"
    case From => "From"
    case ShowAllScans => "Show All Scans"
    case ShowLocations => "Show Locations"
    case AllScans => "All Scans"
    case ScanLocations => "Scan Locations"
    case Loading => "Loading..."
    case Error => "Error"
    case Success => "Success"
    case Cancel => "Cancel"
    case Save => "Save"
    case Edit => "Edit"
    case Created => "Created"
    case Scans => "Scans"
    case Redirecting => "Redirecting..."
    case InvalidQRCode => "Invalid QR code"
    case Destination => "Destination"
    case AutomaticRedirect => "You will be redirected automatically in a moment."
    case SearchWorkers => "Search workers..."
    case Sort => "Sort A-Z"
    case SortAsc => "Sort A-Z"
    case SortDesc => "Sort Z-A"
    case UsernameLabel => "Username Label"
    case FilterWorkers => "Filter Workers"
  }

  /** The `ro` table (src/lib/i18n.js:105-184). */
  function RoText(k: MessageKey): string {
    match k
    case Dashboard => "Panou Principal"
    case Workers => "Angajați"
    case QrGenerator => "Generator QR"
    case Statistics => "Statistici"
    case TotalWorkers => "Total Angajați"
    case TotalQRCodes => "Total Coduri QR"
    case TotalScans => "Total Scanări"
    case QuickActions => "Acțiuni Rapide"
    case AddNewWorker => "Adaugă Angajat"
    case GenerateQRCode => "Generează Cod QR"
    case ViewStatistics => "Vezi Statistici"
    case WorkersList => "Lista Angajaților"
    case WorkerName => "Nume Angajat"
    case WorkerCode => "Cod Angajat"
    case ViewQRCodes => "Vezi Coduri QR"
    case DeleteWorker => "Șterge Angajat"
    case ErrorAddingWorker => "Eroare la adăugarea angajatului. Încercați din nou."
    case ErrorFetchingData => "Eroare la încărcarea datelor"
    case ErrorDeletingWorker => "Eroare la ștergerea angajatului"
    case ErrorDeletingQR => "Eroare la ștergerea codului QR"
    case SearchQRCodes => "Caută coduri QR..."
    case SelectWorker => "Selectează Angajat"
    case Purpose => "Scop"
    case ProductCode => "Cod Produs"
    case DestinationURL => "URL Destinație"
    case Generate => "Generează"
    case Download => "Descarcă Cod QR"
    case Delete => "Șterge"
    case ViewQR => "Vezi QR"
    case QrCode => "Cod QR"
    case QrCodes => "Coduri QR"
    case OpenQR => "Deschide QR"
    case ScanActivity => "Activitate Scanări"
    case Last7Days => "Ultimele 7 Zile"
    case Last30Days => "Ultimele 30 Zile"
    case LastYear => "Ultimul An"
    case ScansPerDay => "Scanări pe Zi"
    case RecentScans => "Scanări Recente"
    case UnknownWorker => "Angajat Necunoscut"
    case UnknownPurpose => "Scop Necunoscut"
    case UnknownDevice => "Dispozitiv Necunoscut"
    case Device => "Dispozitiv"
    case From => "De la"
    case ShowAllScans => "Arată Toate Scanările"
    case ShowLocations => "Arată Locațiile"
    case AllScans => "Toate Scanările"
    case ScanLocations => "Locațiile Scanărilor"
    case Loading => "Se încarcă..."
    case Error => "Eroare"
    case Success => "Succes"
    case Cancel => "Anulează"
    case Save => "Salvează"
    case Edit => "Editează"
    case Created => "Creat"
    case Scans => "Scanări"
    case Redirecting => "Se redirecționează..."
    case InvalidQRCode => "Cod QR invalid"
    case Destination => "Destinație"
    case AutomaticRedirect => "Veți fi redirecționat automat în câteva momente."
    case SearchWorkers => "Caută angajați..."
    case Sort => "Sortare A-Z"
    case SortAsc => "Sortare A-Z"
    case SortDesc => "Sortare Z-A"
    case UsernameLabel => "Etichetă Utilizator"
    case FilterWorkers => "Filtrare Angajați"
  }

  /** The `ru` table (src/lib/i18n.js:186-265). */
  function RuText(k: MessageKey): string {
    match k
    case Dashboard => "Панель управления"
    case Workers => "Сотрудники"
    case QrGenerator => "Генератор QR"
    case Statistics => "Статистика"
    case TotalWorkers => "Всего сотрудников"
    case TotalQRCodes => "Всего QR кодов"
    case TotalScans => "Всего сканирований"
    case QuickActions => "Быстрые действия"
    case AddNewWorker => "Добавить сотрудника"
    case GenerateQRCode => "Создать QR код"
    case ViewStatistics => "Просмотр статистики"
    case WorkersList => "Список сотрудников"
    case WorkerName => "Имя сотрудника"
    case WorkerCode => "Код сотрудника"
    case ViewQRCodes => "Просмотр QR кодов"
    case DeleteWorker => "Удалить сотрудника"
    case ErrorAddingWorker => "Ошибка при добавлении сотрудника. Попробуйте снова."
    case ErrorFetchingData => "Ошибка при загрузке данных"
    case ErrorDeletingWorker => "Ошибка при удалении сотрудника"
    case ErrorDeletingQR => "Ошибка при удалении QR кода"
    case SearchQRCodes => "Поиск QR кодов..."
    case SelectWorker => "Выберите сотрудника"
    case Purpose => "Назначение"
    case ProductCode => "Код продукта"
    case DestinationURL => "URL назначения"
    case Generate => "Создать"
    case Download => "Скачать QR код"
    case Delete => "Удалить"
    case ViewQR => "Просмотр QR"
    case QrCode => "QR код"
    case QrCodes => "QR коды"
    case OpenQR => "Открыть QR"
    case ScanActivity => "Активность сканирований"
    case Last7Days => "Последние 7 дней"
    case Last30Days => "Последние 30 дней"
    case LastYear => "Последний год"
    case ScansPerDay => "Сканирований в день"
    case RecentScans => "Последние сканирования"
    case UnknownWorker => "Неизвестный сотрудник"
    case UnknownPurpose => "Неизвестное назначение"
    case UnknownDevice => "Неизвестное устройство"
    case Device => "Устройство"
    case From => "От"
    case ShowAllScans => "Показать все сканирования"
    case ShowLocations => "Показать локации"
    case AllScans => "Все сканирования"
    case ScanLocations => "Локации сканирований"
    case Loading => "Загрузка..."
    case Error => "Ошибка"
    case Success => "Успешно"
    case Cancel => "Отмена"
    case Save => "Сохранить"
    case Edit => "Редактировать"
    case Created => "Создано"
    case Scans => "Сканирований"
    case Redirecting => "Перенаправление..."
    case InvalidQRCode => "Недействительный QR код"
    case Destination => "Назначение"
    case AutomaticRedirect => "Вы будете автоматически перенаправлены через несколько секунд."
    case SearchWorkers => "Поиск сотрудников..."
    case Sort => "Сортировка А-Я"
    case SortAsc => "Сортировка А-Я"
    case SortDesc => "Сортировка Я-А"
    case UsernameLabel => "Метка пользователя"
    case FilterWorkers => "Фильтр сотрудников"
  }
  /** The locales of the `translations` object. */
  datatype Locale = English | Romanian | Russian

  /** `translations[language]`: the locale whose table the object holds under that name, if any. */
  function LocaleNamed(language: string): (r: Option<Locale>)
    ensures r == Some(English) <==> language == "en"
    ensures r == Some(Romanian) <==> language == "ro"
    ensures r == Some(Russian) <==> language == "ru"
  {
    if language == "en" then Some(English)
    else if language == "ro" then Some(Romanian)
    else if language == "ru" then Some(Russian)
    else None
  }

  /** The entry of a locale's table. */
  function Text(locale: Locale, k: MessageKey): string {
    match locale
    case English => EnText(k)
    case Romanian => RoText(k)
    case Russian => RuText(k)
  }

  /** `translations[language]?.[key]`: the requested entry, when both the
      locale and the key exist. */
  function RequestedEntry(key: string, language: string): (r: Option<string>)
    ensures r.Some? <==> LocaleNamed(language).Some? && ParseKey(key).Some?
    ensures r.Some? ==> r.value == Text(LocaleNamed(language).value, ParseKey(key).value)
  {
    match (LocaleNamed(language), ParseKey(key))
    case (Some(locale), Some(k)) => Some(Text(locale, k))
    case _ => None
  }

  /** `t(key, language)`: the requested entry when truthy (non-empty), else the
      English entry when truthy, else the key itself. */
  function Translate(key: string, language: string): (r: string)
    // a key no table has is shown as itself, whatever the language
    ensures ParseKey(key).None? ==> r == key
    // a supported locale never falls back: its own entry is returned
    ensures ParseKey(key).Some? && LocaleNamed(language).Some? ==> r == Text(LocaleNamed(language).value, ParseKey(key).value)
    // an unknown language gets the English entry
    ensures ParseKey(key).Some? && LocaleNamed(language).None? ==> r == EnText(ParseKey(key).value)
  {
    // no entry is empty, so `||` moves on only when an entry is missing
    KeyEntriesNonEmpty(key, language);
    var requested := RequestedEntry(key, language);
    if requested.Some? && requested.value != "" then requested.value
    else if ParseKey(key).Some? && EnText(ParseKey(key).value) != "" then EnText(ParseKey(key).value)
    else key
  }

  /** The `t` of the default language context, used wherever no provider
      supplies one (the redirect page among them): the identity on keys. */
  function DefaultTranslate(key: string): (r: string)
    ensures r == key
  {
    key
  }

  /** No entry of the `en` table is empty. */
  lemma EnglishEntriesNonEmpty(k: MessageKey)
    ensures EnText(k) != ""
  {
    // one case per key, so that each entry is checked on its own
    match k
    case Dashboard | Workers | QrGenerator | Statistics | TotalWorkers =>
    case TotalQRCodes | TotalScans | QuickActions | AddNewWorker | GenerateQRCode =>
    case ViewStatistics | WorkersList | WorkerName | WorkerCode | ViewQRCodes =>
    case DeleteWorker | ErrorAddingWorker | ErrorFetchingData | ErrorDeletingWorker | ErrorDeletingQR =>
    case SearchQRCodes | SelectWorker | Purpose | ProductCode | DestinationURL =>
    case Generate | Download | Delete | ViewQR | QrCode =>
    case QrCodes | OpenQR | ScanActivity | Last7Days | Last30Days =>
    case LastYear | ScansPerDay | RecentScans | UnknownWorker | UnknownPurpose =>
    case UnknownDevice | Device | From | ShowAllScans | ShowLocations =>
    case AllScans | ScanLocations | Loading | Error | Success =>
    case Cancel | Save | Edit | Created | Scans =>
    case Redirecting | InvalidQRCode | Destination | AutomaticRedirect | SearchWorkers =>
    case Sort | SortAsc | SortDesc | UsernameLabel | FilterWorkers =>
  }

  /** No entry of the `ro` table is empty. */
  lemma RomanianEntriesNonEmpty(k: MessageKey)
    ensures RoText(k) != ""
  {
    // one case per key, so that each entry is checked on its own
    match k
    case Dashboard | Workers | QrGenerator | Statistics | TotalWorkers =>
    case TotalQRCodes | TotalScans | QuickActions | AddNewWorker | GenerateQRCode =>
    case ViewStatistics | WorkersList | WorkerName | WorkerCode | ViewQRCodes =>
    case DeleteWorker | ErrorAddingWorker | ErrorFetchingData | ErrorDeletingWorker | ErrorDeletingQR =>
    case SearchQRCodes | SelectWorker | Purpose | ProductCode | DestinationURL =>
    case Generate | Download | Delete | ViewQR | QrCode =>
    case QrCodes | OpenQR | ScanActivity | Last7Days | Last30Days =>
    case LastYear | ScansPerDay | RecentScans | UnknownWorker | UnknownPurpose =>
    case UnknownDevice | Device | From | ShowAllScans | ShowLocations =>
    case AllScans | ScanLocations | Loading | Error | Success =>
    case Cancel | Save | Edit | Created | Scans =>
    case Redirecting | InvalidQRCode | Destination | AutomaticRedirect | SearchWorkers =>
    case Sort | SortAsc | SortDesc | UsernameLabel | FilterWorkers =>
  }

  /** No entry of the `ru` table is empty. */
  lemma RussianEntriesNonEmpty(k: MessageKey)
    ensures RuText(k) != ""
  {
    // one case per key, so that each entry is checked on its own
    match k
    case Dashboard | Workers | QrGenerator | Statistics | TotalWorkers =>
    case TotalQRCodes | TotalScans | QuickActions | AddNewWorker | GenerateQRCode =>
    case ViewStatistics | WorkersList | WorkerName | WorkerCode | ViewQRCodes =>
    case DeleteWorker | ErrorAddingWorker | ErrorFetchingData | ErrorDeletingWorker | ErrorDeletingQR =>
    case SearchQRCodes | SelectWorker | Purpose | ProductCode | DestinationURL =>
    case Generate | Download | Delete | ViewQR | QrCode =>
    case QrCodes | OpenQR | ScanActivity | Last7Days | Last30Days =>
    case LastYear | ScansPerDay | RecentScans | UnknownWorker | UnknownPurpose =>
    case UnknownDevice | Device | From | ShowAllScans | ShowLocations =>
    case AllScans | ScanLocations | Loading | Error | Success =>
    case Cancel | Save | Edit | Created | Scans =>
    case Redirecting | InvalidQRCode | Destination | AutomaticRedirect | SearchWorkers =>
    case Sort | SortAsc | SortDesc | UsernameLabel | FilterWorkers =>
  }

  /** No entry of any table is empty, so `||` falls through only on a missing
      locale or a missing key. */
  lemma EntriesNonEmpty(locale: Locale, k: MessageKey)
    ensures Text(locale, k) != ""
  {
    match locale
    case English => EnglishEntriesNonEmpty(k);
    case Romanian => RomanianEntriesNonEmpty(k);
    case Russian => RussianEntriesNonEmpty(k);
  }

  /** The entries `t` may look up are not empty. */
  lemma KeyEntriesNonEmpty(key: string, language: string)
    ensures ParseKey(key).Some? ==> EnText(ParseKey(key).value) != ""
    ensures ParseKey(key).Some? && LocaleNamed(language).Some? ==> Text(LocaleNamed(language).value, ParseKey(key).value) != ""
  {
    if ParseKey(key).Some? {
      EnglishEntriesNonEmpty(ParseKey(key).value);
      if LocaleNamed(language).Some? {
        EntriesNonEmpty(LocaleNamed(language).value, ParseKey(key).value);
      }
    }
  }

  /** The logout button's key has no entry in any table, so it shows as "logout". */
  lemma LogoutIsUntranslated(language: string)
    ensures ParseKey("logout").None?
    ensures Translate("logout", language) == "logout"
  {
  }

  /** An entry of the `languages` table. */
  datatype LanguageInfo = LanguageInfo(name: string, code: string, flag: string)

  /** The `languages` table: the locales the language switcher offers. */
  const Languages: map<string, LanguageInfo> := map[
    "en" := LanguageInfo("English", "en", "\U{1F1EC}\U{1F1E7}"),
    "ro" := LanguageInfo("Română", "ro", "\U{1F1F7}\U{1F1F4}"),
    "ru" := LanguageInfo("Русский", "ru", "\U{1F1F7}\U{1F1FA}")
  ]

  /** `languages` has the keys en, ro and ru, each entry's `code` is its key,
      and the switcher offers exactly the locales the tables cover. */
  lemma LanguagesTable()
    ensures Languages.Keys == {"en", "ro", "ru"}
    ensures forall code :: code in Languages ==> Languages[code].code == code
    ensures forall code :: code in Languages <==> LocaleNamed(code).Some?
  {
  }
}
