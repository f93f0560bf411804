/**
 * The fixed wording of the reservation messages: Markdown headings, field
 * labels and separators, each on one line.
 */
module Wording {
  import opened Text

  const AdminTitle: OneLine := "✅ *Новое бронирование*"
  const GuestTitle: OneLine := "✅ *Ваше бронирование подтверждено!*"
  const ContactLabel: OneLine := "📞 Наш номер для связи: "
  const ContactPhone: OneLine := "+79867427283"
  const ContactLine: OneLine := ContactLabel + ContactPhone

  // The add-ons heading: the notifications put the colon inside the bold
  // markers, the detail caption outside them.
  const AddOnsHeading: OneLine := "🔥 *Забронированы дополнительно"
  const AddOnsTitle: OneLine := AddOnsHeading + ":*"
  const DetailAddOnsTitle: OneLine := AddOnsHeading + "*:"

  const HouseLabel: OneLine := "🏠 Дом: "
  const GuestLabel: OneLine := "👤 Гость: "
  const PhoneLabel: OneLine := "📞 "
  const StayLabel: OneLine := "📅 "
  const Arrow: OneLine := " → "
  const GuestsLabel: OneLine := "👥 "
  const GuestsUnit: OneLine := " гостей"
  const PriceLabel: OneLine := "💳 "
  const StayPriceLabel: OneLine := "💳 Стоимость проживания: "
  const Rouble: OneLine := " ₽"
  const RoubleTight: OneLine := "₽"
  const StatusPrefix: OneLine := "ℹ️ Статус: "
  const BulletMark: OneLine := "• "
  const NameSep: OneLine := ": "
  const FromSep: OneLine := " с "
  const ToSep: OneLine := " до "
}
